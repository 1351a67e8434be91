// `validateCheckpointBeliefHistory` (packages/arc-agi-3/src/checkpoint.ts): which belief graphs it
// accepts over a verified receipt chain, and which of those a real run can have built.
module BeliefHistory {
  import opened BeliefGraph
  import opened Collections
  import opened Wrappers

  datatype Receipt = Receipt(
    sequence: int, action: Action,
    preObservation: ObservationHash, postObservation: ObservationHash,
    preBelief: BeliefKey, postBelief: BeliefKey,
    stateBefore: State, stateAfter: State,
    levelsBefore: int, levelsAfter: int,
    frames: seq<Hash>, noEffect: bool, hash: Hash)

  /** What a receipt alone shows of the legality of its action. */
  ghost predicate SuitsState(state: State, name: ActionName) {
    match state
    case WIN => false
    case NOT_FINISHED => name != RESET
    case _ => name == RESET
  }

  /**
   * The actions the controller lets through after an observation: while the game runs those on offer, before and
   * after it a reset, and nothing once it is won.
   */
  ghost predicate Legal(state: State, actions: seq<ActionName>, name: ActionName) {
    && state != WIN
    && (state == NOT_FINISHED ==> name in actions && name != RESET)
    && (state == NOT_PLAYED || state == GAME_OVER ==> name == RESET)
  }

  /** One receipt of a verified chain: its number, its effect flag and its action fit. */
  ghost predicate LinkOk(r: Receipt, number: int) {
    r.sequence == number && r.noEffect == (r.preObservation == r.postObservation)
        && SuitsState(r.stateBefore, r.action.name)
  }

  /** What the verified receipt chain guarantees: numbered from 1, each receipt starting where the last one ended. */
  ghost predicate Contiguous(receipts: seq<Receipt>) {
    && (forall i :: 0 <= i < |receipts| ==> LinkOk(receipts[i], i + 1))
    && (forall i :: 0 <= i < |receipts| - 1 ==> receipts[i + 1].preBelief == receipts[i].postBelief)
  }

  // ---------------------------------------------------------------- the validator

  function Lookup(nodes: seq<Node>, key: BeliefKey): (r: Option<Node>)
    ensures r.Some? ==> r.value in nodes && r.value.key == key
    ensures r.None? ==> !HasNode(nodes, key)
  {
    if nodes == [] then None
    else if nodes[0].key == key then Some(nodes[0])
    else
      var r := Lookup(nodes[1..], key);
      assert forall i :: 0 < i < |nodes| ==> nodes[i] == nodes[1..][i - 1];
      r
  }

  function LookupEdge(edges: seq<Edge>, key: EdgeKey): (r: Option<Edge>)
    ensures r.Some? ==> r.value in edges && r.value.key == key
    ensures r.None? ==> forall i :: 0 <= i < |edges| ==> edges[i].key != key
  {
    if edges == [] then None
    else if edges[0].key == key then Some(edges[0])
    else
      var r := LookupEdge(edges[1..], key);
      assert forall i :: 0 < i < |edges| ==> edges[i] == edges[1..][i - 1];
      r
  }

  ghost predicate NodesMatch(scope: Scope, from: Node, to: Node, r: Receipt) {
    && r.frames != []
    && from.observation == r.preObservation && from.state == r.stateBefore && from.levels == r.levelsBefore
    && to.observation == r.postObservation && to.state == r.stateAfter && to.levels == r.levelsAfter
    && to.frame == r.frames[|r.frames| - 1]
    && from.visits == 1 && to.visits == 1
    && to.latent == Step(from.latent, from.key, r.action, r.postObservation, r.sequence)
    && to.key == KeyOf(scope, r.postObservation, Step(from.latent, from.key, r.action, r.postObservation, r.sequence))
  }

  ghost predicate EdgeMatches(edge: Edge, to: Node, r: Receipt) {
    && edge.observation == r.preObservation && edge.action == r.action
    && edge.tested == 1 && edge.noEffect == (if r.noEffect then 1 else 0)
    && |edge.outcomes| == 1 && edge.outcomes[0] == Outcome(to.key, [r.hash], 1)
  }

  ghost predicate StepAccepted(scope: Scope, g: Snapshot, r: Receipt) {
    match (Lookup(g.nodes, r.preBelief), Lookup(g.nodes, r.postBelief))
    case (Some(from), Some(to)) =>
      && NodesMatch(scope, from, to, r)
      && (match LookupEdge(g.edges, EdgeOf(from.key, r.action))
          case Some(edge) => EdgeMatches(edge, to, r)
          case None => false)
    case _ => false
  }

  function GenesisKey(scope: Scope, o: ObservationHash): BeliefKey {
    KeyOf(scope, o, Genesis(o))
  }

  /** A node records what the observation showed. */
  ghost predicate Shows(n: Node, o: Observation) {
    n.observation == o.hash && n.frame == o.frame && n.state == o.state && n.levels == o.levels
        && n.actions == o.actions
  }

  ghost function FirstObservation(o: Observation, receipts: seq<Receipt>): ObservationHash {
    if receipts == [] then o.hash else receipts[0].preObservation
  }

  ghost predicate GenesisAccepted(scope: Scope, o: Observation, g: Snapshot, receipts: seq<Receipt>) {
    var first := FirstObservation(o, receipts);
    match Lookup(g.nodes, GenesisKey(scope, first))
    case None => false
    case Some(n) =>
      && n.latent == Genesis(first) && n.visits == 1
      && (receipts == [] ==> g.current == Some(n.key) && Shows(n, o))
  }

  ghost predicate HistoryAccepted(scope: Scope, o: Observation, g: Snapshot, receipts: seq<Receipt>) {
    && Acceptable(g, scope, |receipts| + 1, |receipts|)
    && |g.nodes| == |receipts| + 1 && |g.edges| == |receipts|
    && GenesisAccepted(scope, o, g, receipts)
    && forall i :: 0 <= i < |receipts| ==> StepAccepted(scope, g, receipts[i])
  }

  method ValidateHistory(scope: Scope, o: Observation, g: Snapshot, receipts: seq<Receipt>) returns (ok: bool)
    ensures ok <==> HistoryAccepted(scope, o, g, receipts)
  {
    hide Acceptable, StepAccepted, GenesisAccepted;
    ok := ValidateSnapshot(g, scope, |receipts| + 1, |receipts|);
    if !ok || |g.nodes| != |receipts| + 1 || |g.edges| != |receipts| { return false; }
    ok := ValidateGenesis(scope, o, g, receipts);
    if !ok { return; }
    for i := 0 to |receipts|
      invariant forall j :: 0 <= j < i ==> StepAccepted(scope, g, receipts[j])
    {
      ok := ValidateStep(scope, g, receipts[i]);
      if !ok { return; }
    }
  }

  method ValidateGenesis(scope: Scope, o: Observation, g: Snapshot, receipts: seq<Receipt>) returns (ok: bool)
    ensures ok <==> GenesisAccepted(scope, o, g, receipts)
  {
    var first := if receipts == [] then o.hash else receipts[0].preObservation;
    var latent := Genesis(first);
    var found := Lookup(g.nodes, KeyOf(scope, first, latent));
    if found.None? || found.value.latent != latent || found.value.visits != 1 { return false; }
    if receipts == [] {
      var n := found.value;
      if g.current != Some(n.key) { return false; }
      if n.observation != o.hash || n.frame != o.frame || n.state != o.state || n.levels != o.levels
          || n.actions != o.actions {
        return false;
      }
    }
    ok := true;
  }

  /** One receipt against the two nodes it names and the edge between them. */
  method ValidateStep(scope: Scope, g: Snapshot, r: Receipt) returns (ok: bool)
    ensures ok <==> StepAccepted(scope, g, r)
  {
    var before, after := Lookup(g.nodes, r.preBelief), Lookup(g.nodes, r.postBelief);
    if before.None? || after.None? || r.frames == [] { return false; }
    var from, to := before.value, after.value;
    if from.observation != r.preObservation || from.state != r.stateBefore || from.levels != r.levelsBefore {
      return false;
    }
    if to.observation != r.postObservation || to.state != r.stateAfter || to.levels != r.levelsAfter
        || to.frame != r.frames[|r.frames| - 1] {
      return false;
    }
    if from.visits != 1 || to.visits != 1 { return false; }
    var latent := Step(from.latent, from.key, r.action, r.postObservation, r.sequence);
    if to.latent != latent || to.key != KeyOf(scope, r.postObservation, latent) { return false; }
    var found := LookupEdge(g.edges, EdgeOf(from.key, r.action));
    if found.None? { return false; }
    var edge := found.value;
    if edge.observation != r.preObservation || edge.action != r.action || edge.tested != 1
        || edge.noEffect != (if r.noEffect then 1 else 0) || |edge.outcomes| != 1 {
      return false;
    }
    var outcome := edge.outcomes[0];
    ok := outcome.to == to.key && outcome.count == 1 && outcome.receipts == [r.hash];
  }

  // ---------------------------------------------------------------- runs

  /** The node a run stands on after its first `k` transitions. */
  ghost function RunNode(scope: Scope, obs: seq<Observation>, receipts: seq<Receipt>, k: nat): Node
    requires k <= |receipts| && |obs| == |receipts| + 1
  {
    if k == 0 then MakeNode(scope, GenesisOf(scope, obs[0]), obs[0], 1)
    else MakeNode(scope, NextOf(scope, RunNode(scope, obs, receipts, k - 1), receipts[k - 1].action, obs[k], k), obs[k],
          1)
  }

  ghost function RunEdge(scope: Scope, obs: seq<Observation>, receipts: seq<Receipt>, k: nat): Edge
    requires 1 <= k <= |receipts| && |obs| == |receipts| + 1
  {
    var from, r := RunNode(scope, obs, receipts, k - 1), receipts[k - 1];
    Edge(EdgeOf(from.key, r.action), from.key, from.observation, r.action,
         [Outcome(RunNode(scope, obs, receipts, k).key, [r.hash], 1)], 1, if r.noEffect then 1 else 0)
  }

  ghost function TransitionAt(scope: Scope, obs: seq<Observation>, receipts: seq<Receipt>, k: nat,
      from: Node): Transition
    requires 1 <= k <= |receipts| && |obs| == |receipts| + 1
  {
    var r := receipts[k - 1];
    Transition(r.action, obs[k], NextOf(scope, from, r.action, obs[k], k), r.hash, r.noEffect)
  }

  /** The graph built by `initialize` and then `k` times `previewNext` and `recordTransition`. */
  ghost function RunGraph(scope: Scope, obs: seq<Observation>, receipts: seq<Receipt>, k: nat): Graph
    requires k <= |receipts| && |obs| == |receipts| + 1
  {
    if k == 0 then Initialized(scope, EMPTY, obs[0])
    else
      var from := RunNode(scope, obs, receipts, k - 1);
      Recorded(scope, RunGraph(scope, obs, receipts, k - 1), from, TransitionAt(scope, obs, receipts, k, from))
  }

  ghost function RunNodes(scope: Scope, obs: seq<Observation>, receipts: seq<Receipt>, k: nat): (ns: seq<Node>)
    requires k <= |receipts| && |obs| == |receipts| + 1
    ensures |ns| == k + 1
  {
    seq(k + 1, i requires 0 <= i <= k => RunNode(scope, obs, receipts, i))
  }

  ghost function RunEdges(scope: Scope, obs: seq<Observation>, receipts: seq<Receipt>, k: nat): (es: seq<Edge>)
    requires k <= |receipts| && |obs| == |receipts| + 1
    ensures |es| == k
  {
    seq(k, i requires 0 <= i < k => RunEdge(scope, obs, receipts, i + 1))
  }

  function Depth(l: Latent): nat {
    match l
    case Step(previous, _, _, _, _) => 1 + Depth(previous)
    case _ => 0
  }

  /** Hidden state is never revisited: the k-th node is k steps deep. */
  lemma {:induction false} RunDepth(scope: Scope, obs: seq<Observation>, receipts: seq<Receipt>, k: nat)
    requires k <= |receipts| && |obs| == |receipts| + 1
    ensures Depth(RunNode(scope, obs, receipts, k).latent) == k
    ensures RunNode(scope, obs, receipts, k).key == KeyOf(scope, obs[k].hash, RunNode(scope, obs, receipts, k).latent)
  {
    if k > 0 {
      RunDepth(scope, obs, receipts, k - 1);
    }
  }

  lemma RunKeysDiffer(scope: Scope, obs: seq<Observation>, receipts: seq<Receipt>, i: nat, j: nat)
    requires i < j <= |receipts| && |obs| == |receipts| + 1
    ensures RunNode(scope, obs, receipts, i).key != RunNode(scope, obs, receipts, j).key
  {
    RunDepth(scope, obs, receipts, i);
    RunDepth(scope, obs, receipts, j);
  }

  ghost predicate IsRunGraph(scope: Scope, obs: seq<Observation>, receipts: seq<Receipt>, k: nat, g: Graph)
    requires k <= |receipts| && |obs| == |receipts| + 1
  {
    && Keyed(g)
    && g.nodes.Values() == RunNodes(scope, obs, receipts, k)
    && g.edges.Values() == RunEdges(scope, obs, receipts, k)
    && g.current == Some(RunNode(scope, obs, receipts, k).key)
  }

  lemma RunGoesOn(scope: Scope, obs: seq<Observation>, receipts: seq<Receipt>, k: nat)
    requires 1 <= k <= |receipts| && |obs| == |receipts| + 1
    ensures var from := RunNode(scope, obs, receipts, k - 1);
            RunGraph(scope, obs, receipts, k)
                == Recorded(scope, RunGraph(scope, obs, receipts, k - 1), from,
                      TransitionAt(scope, obs, receipts, k, from))
  {
    hide RunNode, Recorded, TransitionAt;
  }

  /** Every key a run meets is new, so each node is visited once and each edge tested once. */
  lemma {:induction false} EveryKeyIsFresh(scope: Scope, obs: seq<Observation>, receipts: seq<Receipt>, k: nat)
    requires k <= |receipts| && |obs| == |receipts| + 1
    ensures IsRunGraph(scope, obs, receipts, k, RunGraph(scope, obs, receipts, k))
  {
    hide *;
    if k == 0 {
      FirstGraph(scope, obs, receipts);
    } else {
      EveryKeyIsFresh(scope, obs, receipts, k - 1);
      FreshStep(scope, obs, receipts, k, RunGraph(scope, obs, receipts, k - 1));
      RunGoesOn(scope, obs, receipts, k);
    }
  }

  lemma FirstGraph(scope: Scope, obs: seq<Observation>, receipts: seq<Receipt>)
    requires |obs| == |receipts| + 1
    ensures IsRunGraph(scope, obs, receipts, 0, RunGraph(scope, obs, receipts, 0))
  {
    var first := RunNode(scope, obs, receipts, 0);
    var i := EMPTY.nodes.SetValues(first.key, first);
  }

  lemma FreshStep(scope: Scope, obs: seq<Observation>, receipts: seq<Receipt>, k: nat, g: Graph)
    requires 1 <= k <= |receipts| && |obs| == |receipts| + 1
    requires IsRunGraph(scope, obs, receipts, k - 1, g)
    ensures var from := RunNode(scope, obs, receipts, k - 1);
            IsRunGraph(scope, obs, receipts, k, Recorded(scope, g, from, TransitionAt(scope, obs, receipts, k, from)))
  {
    var from := RunNode(scope, obs, receipts, k - 1);
    var t := TransitionAt(scope, obs, receipts, k, from);
    var to, e := RunNode(scope, obs, receipts, k), RunEdge(scope, obs, receipts, k);
    hide *;
    FreshNodeKey(scope, obs, receipts, k, g);
    FreshEdgeKey(scope, obs, receipts, k, g);
    RunStepUnfolds(scope, obs, receipts, k);
    AppendFresh(scope, g, from, t, to, e);
    RunGraphGrows(scope, obs, receipts, k, g, Recorded(scope, g, from, t));
  }

  lemma RunStepUnfolds(scope: Scope, obs: seq<Observation>, receipts: seq<Receipt>, k: nat)
    requires 1 <= k <= |receipts| && |obs| == |receipts| + 1
    ensures var from := RunNode(scope, obs, receipts, k - 1);
            var t := TransitionAt(scope, obs, receipts, k, from);
            && t.next.key == RunNode(scope, obs, receipts, k).key
            && EdgeOf(from.key, t.action) == RunEdge(scope, obs, receipts, k).key
            && RunNode(scope, obs, receipts, k) == MakeNode(scope, t.next, t.observation, 1)
            && RunEdge(scope, obs, receipts, k) == TakenEdge(from, None, RunNode(scope, obs, receipts, k).key, t)
  {
    var from := RunNode(scope, obs, receipts, k - 1);
    FreshTaken(from, RunNode(scope, obs, receipts, k), TransitionAt(scope, obs, receipts, k, from));
    hide TakenEdge;
  }

  lemma RunGraphGrows(scope: Scope, obs: seq<Observation>, receipts: seq<Receipt>, k: nat, g: Graph, h: Graph)
    requires 1 <= k <= |receipts| && |obs| == |receipts| + 1
    requires IsRunGraph(scope, obs, receipts, k - 1, g) && Keyed(h)
    requires h.nodes.Values() == g.nodes.Values() + [RunNode(scope, obs, receipts, k)]
    requires h.edges.Values() == g.edges.Values() + [RunEdge(scope, obs, receipts, k)]
    requires h.current == Some(RunNode(scope, obs, receipts, k).key)
    ensures IsRunGraph(scope, obs, receipts, k, h)
  {
    hide RunNode, RunEdge, Keyed;
    assert RunNodes(scope, obs, receipts, k)
           == RunNodes(scope, obs, receipts, k - 1) + [RunNode(scope, obs, receipts, k)];
    assert RunEdges(scope, obs, receipts, k)
           == RunEdges(scope, obs, receipts, k - 1) + [RunEdge(scope, obs, receipts, k)];
  }

  lemma FreshTaken(from: Node, to: Node, t: Transition)
    ensures TakenEdge(from, None, to.key, t) ==
            Edge(EdgeOf(from.key, t.action), from.key, from.observation, t.action, [Outcome(to.key, [t.receipt], 1)], 1,
                  if t.noEffect then 1 else 0)
  {
  }

  /** A transition that meets a new node over a new edge appends both. */
  lemma AppendFresh(scope: Scope, g: Graph, from: Node, t: Transition, to: Node, e: Edge)
    requires Keyed(g) && t.next.key !in g.nodes.at && EdgeOf(from.key, t.action) !in g.edges.at
    requires to == MakeNode(scope, t.next, t.observation, 1)
    requires e == TakenEdge(from, None, to.key, t) && e.key == EdgeOf(from.key, t.action)
    ensures var h := Recorded(scope, g, from, t);
            && Keyed(h) && h.nodes.Values() == g.nodes.Values() + [to] && h.edges.Values() == g.edges.Values() + [e]
            && h.current == Some(to.key)
  {
    hide AddOutcome;
    assert e.key == EdgeOf(from.key, t.action);
    var i := g.nodes.SetValues(to.key, to);
    var j := g.edges.SetValues(e.key, e);
    var h := Recorded(scope, g, from, t);
    assert h.nodes == g.nodes.Set(to.key, to) && h.edges == g.edges.Set(e.key, e);
  }

  lemma FreshNodeKey(scope: Scope, obs: seq<Observation>, receipts: seq<Receipt>, k: nat, g: Graph)
    requires 1 <= k <= |receipts| && |obs| == |receipts| + 1
    requires IsRunGraph(scope, obs, receipts, k - 1, g)
    ensures RunNode(scope, obs, receipts, k).key !in g.nodes.at
  {
    var key := RunNode(scope, obs, receipts, k).key;
    forall i | 0 <= i < k ensures g.nodes.Values()[i].key != key {
      assert g.nodes.Values()[i] == RunNode(scope, obs, receipts, i);
      RunKeysDiffer(scope, obs, receipts, i, k);
    }
    KeyedNode(g, key);
  }

  lemma FreshEdgeKey(scope: Scope, obs: seq<Observation>, receipts: seq<Receipt>, k: nat, g: Graph)
    requires 1 <= k <= |receipts| && |obs| == |receipts| + 1
    requires IsRunGraph(scope, obs, receipts, k - 1, g)
    ensures RunEdge(scope, obs, receipts, k).key !in g.edges.at
  {
    var key := RunEdge(scope, obs, receipts, k).key;
    forall i | 0 <= i < k - 1 ensures g.edges.Values()[i].key != key {
      assert g.edges.Values()[i] == RunEdge(scope, obs, receipts, i + 1);
      RunKeysDiffer(scope, obs, receipts, i, k - 1);
    }
    if key in g.edges.at {
      KeyedEdge(g, key);
    }
  }

  // ---------------------------------------------------------------- what a run leaves in its receipts

  /** The receipt of transition `k` describes what the run saw and where it stood. */
  ghost predicate Describes(scope: Scope, obs: seq<Observation>, receipts: seq<Receipt>, k: nat)
    requires 1 <= k <= |receipts| && |obs| == |receipts| + 1
  {
    var r := receipts[k - 1];
    && r.sequence == k && ValidAction(r.action)
    && r.preObservation == obs[k - 1].hash && r.postObservation == obs[k].hash
    && r.stateBefore == obs[k - 1].state && r.stateAfter == obs[k].state
    && r.levelsBefore == obs[k - 1].levels && r.levelsAfter == obs[k].levels
    && r.preBelief == RunNode(scope, obs, receipts, k - 1).key
    && r.postBelief == RunNode(scope, obs, receipts, k).key
    && r.frames != [] && r.frames[|r.frames| - 1] == obs[k].frame
    && r.noEffect == (obs[k - 1].hash == obs[k].hash)
    && Legal(obs[k - 1].state, obs[k - 1].actions, r.action.name)
  }

  ghost predicate Alphabetical(names: seq<ActionName>) {
    forall i, j :: 0 <= i < j < |names| ==> NameOrder(names[i]) < NameOrder(names[j])
  }

  /** An observation whose hash is that of its own contents. */
  ghost predicate Exact(o: Observation) {
    && o.hash == HashOf(o.game, o.state, o.levels, o.winLevels, o.actions, o.frame)
    && ValidActions(o.actions) && o.levels >= 0 && o.winLevels >= 0
  }

  /** An observation as the controller takes it from the environment. */
  ghost predicate Genuine(scope: Scope, o: Observation) {
    Exact(o) && o.game == scope.game && Alphabetical(o.actions)
  }

  /** `receipts` are those of a run that made the observations `obs`. */
  ghost predicate IsRun(scope: Scope, obs: seq<Observation>, receipts: seq<Receipt>) {
    && |obs| == |receipts| + 1
    && (forall k :: 0 <= k <= |receipts| ==> Genuine(scope, obs[k]))
    && (forall k :: 1 <= k <= |receipts| ==> Describes(scope, obs, receipts, k))
    && (forall i, j :: 0 <= i < j < |receipts| ==> receipts[i].hash != receipts[j].hash)
  }

  /** The same nodes and edges, in any order. */
  ghost predicate SameGraph(s: Snapshot, scope: Scope, obs: seq<Observation>, receipts: seq<Receipt>)
    requires |obs| == |receipts| + 1
  {
    && multiset(s.nodes) == multiset(RunNodes(scope, obs, receipts, |receipts|))
    && multiset(s.edges) == multiset(RunEdges(scope, obs, receipts, |receipts|))
  }

  function Hashes(receipts: seq<Receipt>): (hs: seq<Hash>)
    ensures |hs| == |receipts|
  {
    seq(|receipts|, i requires 0 <= i < |receipts| => receipts[i].hash)
  }

  lemma RunEdgesGrow(scope: Scope, obs: seq<Observation>, receipts: seq<Receipt>, k: nat)
    requires 1 <= k <= |receipts| && |obs| == |receipts| + 1
    ensures RunEdges(scope, obs, receipts, k)
            == RunEdges(scope, obs, receipts, k - 1) + [RunEdge(scope, obs, receipts, k)]
    ensures Hashes(receipts)[..k] == Hashes(receipts)[..k - 1] + [receipts[k - 1].hash]
    ensures OutcomeReceipts(RunEdge(scope, obs, receipts, k).outcomes) == multiset{receipts[k - 1].hash}
  {
    hide RunNode, OutcomeReceipts;
    OneOutcome(RunEdge(scope, obs, receipts, k), receipts[k - 1].hash);
  }

  lemma NoEdges(scope: Scope, obs: seq<Observation>, receipts: seq<Receipt>)
    requires |obs| == |receipts| + 1
    ensures EdgeReceipts(RunEdges(scope, obs, receipts, 0)) == multiset(Hashes(receipts)[..0])
  {
    hide RunEdge;
  }

  lemma {:induction false} RunReceipts(scope: Scope, obs: seq<Observation>, receipts: seq<Receipt>, k: nat)
    requires k <= |receipts| && |obs| == |receipts| + 1
    ensures EdgeReceipts(RunEdges(scope, obs, receipts, k)) == multiset(Hashes(receipts)[..k])
  {
    hide *;
    if k == 0 {
      NoEdges(scope, obs, receipts);
    } else {
      RunReceipts(scope, obs, receipts, k - 1);
      RunEdgesGrow(scope, obs, receipts, k);
      EdgeReceiptsAppend(RunEdges(scope, obs, receipts, k - 1), RunEdge(scope, obs, receipts, k));
    }
  }

  lemma OneOutcome(e: Edge, h: Hash)
    requires |e.outcomes| == 1 && e.outcomes[0].receipts == [h]
    ensures OutcomeReceipts(e.outcomes) == multiset{h}
  {
    assert e.outcomes[..0] == [];
    assert OutcomeReceipts([]) == multiset{};
  }

  lemma RemoveEdge(es: seq<Edge>, j: nat)
    requires j < |es|
    ensures EdgeReceipts(es) == EdgeReceipts(es[..j] + es[j + 1..]) + OutcomeReceipts(es[j].outcomes)
    decreases |es|
  {
    hide *;
    var k := |es| - 1;
    var rest := es[..j] + es[j + 1..];
    assert es == es[..k] + [es[k]];
    EdgeReceiptsAppend(es[..k], es[k]);
    if j < k {
      var less := es[..k][..j] + es[..k][j + 1..];
      RemoveEdge(es[..k], j);
      assert rest == less + [es[k]];
      EdgeReceiptsAppend(less, es[k]);
    } else {
      assert rest == es[..k];
    }
  }

  /** The receipts cited do not depend on the order of the edges. */
  lemma {:induction false} ReceiptsIgnoreOrder(es: seq<Edge>, fs: seq<Edge>)
    requires multiset(es) == multiset(fs)
    ensures EdgeReceipts(es) == EdgeReceipts(fs)
    decreases |es|
  {
    hide *;
    if es == [] {
      BagOfNothing(fs);
    } else {
      var k := |es| - 1;
      assert es[k] in multiset(fs);
      var j :| 0 <= j < |fs| && fs[j] == es[k];
      var rest := fs[..j] + fs[j + 1..];
      BagWithout(es, k);
      assert es[..k] + es[k + 1..] == es[..k];
      BagWithout(fs, j);
      ReceiptsIgnoreOrder(es[..k], rest);
      RemoveEdge(es, k);
      RemoveEdge(fs, j);
    }
  }

  // ---------------------------------------------------------------- completeness

  lemma LookupUnique(nodes: seq<Node>, n: Node)
    requires n in nodes && forall i, j :: 0 <= i < j < |nodes| ==> nodes[i].key != nodes[j].key
    ensures Lookup(nodes, n.key) == Some(n)
  {
    var i :| 0 <= i < |nodes| && nodes[i] == n;
    assert HasNode(nodes, n.key);
    var r := Lookup(nodes, n.key).value;
    var j :| 0 <= j < |nodes| && nodes[j] == r;
  }

  lemma LookupEdgeUnique(edges: seq<Edge>, e: Edge)
    requires e in edges && forall i, j :: 0 <= i < j < |edges| ==> edges[i].key != edges[j].key
    ensures LookupEdge(edges, e.key) == Some(e)
  {
    var i :| 0 <= i < |edges| && edges[i] == e;
    var r := LookupEdge(edges, e.key).value;
    var j :| 0 <= j < |edges| && edges[j] == r;
  }

  lemma {:induction false} RunIsSound(scope: Scope, obs: seq<Observation>, receipts: seq<Receipt>, k: nat)
    requires |obs| == |receipts| + 1 && IsRun(scope, obs, receipts) && k <= |receipts|
    ensures Sound(scope, RunGraph(scope, obs, receipts, k), k)
  {
    hide *;
    RunBegins(scope, obs, receipts);
    if k > 0 {
      RunIsSound(scope, obs, receipts, k - 1);
      RunIsRecordable(scope, obs, receipts, k);
      var from := RunNode(scope, obs, receipts, k - 1);
      RecordedIsSound(scope, RunGraph(scope, obs, receipts, k - 1), from, TransitionAt(scope, obs, receipts, k, from),
            k - 1);
      RunGoesOn(scope, obs, receipts, k);
    }
  }

  lemma RunBegins(scope: Scope, obs: seq<Observation>, receipts: seq<Receipt>)
    requires IsRun(scope, obs, receipts)
    ensures |obs| == |receipts| + 1 && Sound(scope, RunGraph(scope, obs, receipts, 0), 0)
  {
    hide Sound, Describes, Initialized;
    assert Genuine(scope, obs[0]);
    InitializedIsSound(scope, obs[0]);
  }

  lemma RunIsRecordable(scope: Scope, obs: seq<Observation>, receipts: seq<Receipt>, k: nat)
    requires |obs| == |receipts| + 1 && IsRun(scope, obs, receipts) && 1 <= k <= |receipts|
    ensures var g := RunGraph(scope, obs, receipts, k - 1);
            var from := RunNode(scope, obs, receipts, k - 1);
            && g.edges.Valid() && Recordable(scope, g, TransitionAt(scope, obs, receipts, k, from))
            && from.key in g.nodes.at && g.nodes.at[from.key] == from
  {
    hide RunGraph, RunNode, ValidActions, EdgeReceipts, RunEdges;
    var g := RunGraph(scope, obs, receipts, k - 1);
    var from := RunNode(scope, obs, receipts, k - 1);
    EveryKeyIsFresh(scope, obs, receipts, k - 1);
    assert Genuine(scope, obs[k]) && Describes(scope, obs, receipts, k);
    RunReceipts(scope, obs, receipts, k - 1);
    assert g.nodes.Values()[k - 1] == from;
    NodeAtKey(g, k - 1);
  }

  lemma NodeAtKey(g: Graph, i: nat)
    requires Keyed(g) && i < |g.nodes.keys|
    ensures g.nodes.Values()[i].key in g.nodes.at && g.nodes.at[g.nodes.Values()[i].key] == g.nodes.Values()[i]
  {
    assert g.nodes.keys[i] in Elements(g.nodes.keys);
  }

  lemma RunKeysAreDistinct(scope: Scope, obs: seq<Observation>, receipts: seq<Receipt>)
    requires |obs| == |receipts| + 1
    ensures var ns := RunNodes(scope, obs, receipts, |receipts|);
            var es := RunEdges(scope, obs, receipts, |receipts|);
            && (forall i, j :: 0 <= i < j < |ns| ==> ns[i].key != ns[j].key)
            && (forall i, j :: 0 <= i < j < |es| ==> es[i].key != es[j].key)
  {
    var ns := RunNodes(scope, obs, receipts, |receipts|);
    var es := RunEdges(scope, obs, receipts, |receipts|);
    hide RunNode;
    forall i, j | 0 <= i < j < |ns| ensures ns[i].key != ns[j].key {
      RunKeysDiffer(scope, obs, receipts, i, j);
    }
    forall i, j | 0 <= i < j < |es| ensures es[i].key != es[j].key {
      RunKeysDiffer(scope, obs, receipts, i, j);
    }
  }

  lemma PermutedNodes(xs: seq<Node>, ys: seq<Node>)
    requires multiset(xs) == multiset(ys) && forall i, j :: 0 <= i < j < |ys| ==> ys[i].key != ys[j].key
    ensures |xs| == |ys| && forall i, j :: 0 <= i < j < |xs| ==> xs[i].key != xs[j].key
    ensures forall x :: x in xs <==> x in ys
  {
    assert |multiset(xs)| == |xs| && |multiset(ys)| == |ys|;
    assert forall x :: x in xs <==> x in multiset(xs);
    assert forall x :: x in ys <==> x in multiset(ys);
    CoveringIsPermutation(ys, xs);
    forall i, j | 0 <= i < j < |xs| ensures xs[i].key != xs[j].key {
      assert xs[i] in ys && xs[j] in ys;
      var a :| 0 <= a < |ys| && ys[a] == xs[i];
      var b :| 0 <= b < |ys| && ys[b] == xs[j];
      assert xs[i] != xs[j];
    }
  }

  lemma PermutedEdges(xs: seq<Edge>, ys: seq<Edge>)
    requires multiset(xs) == multiset(ys) && forall i, j :: 0 <= i < j < |ys| ==> ys[i].key != ys[j].key
    ensures |xs| == |ys| && forall i, j :: 0 <= i < j < |xs| ==> xs[i].key != xs[j].key
    ensures forall x :: x in xs <==> x in ys
  {
    assert |multiset(xs)| == |xs| && |multiset(ys)| == |ys|;
    assert forall x :: x in xs <==> x in multiset(xs);
    assert forall x :: x in ys <==> x in multiset(ys);
    CoveringIsPermutation(ys, xs);
    forall i, j | 0 <= i < j < |xs| ensures xs[i].key != xs[j].key {
      assert xs[i] in ys && xs[j] in ys;
      var a :| 0 <= a < |ys| && ys[a] == xs[i];
      var b :| 0 <= b < |ys| && ys[b] == xs[j];
      assert xs[i] != xs[j];
    }
  }

  /** Acceptance of a snapshot does not depend on the order of its nodes and edges. */
  lemma AcceptableIgnoresOrder(s: Snapshot, nodes: seq<Node>, edges: seq<Edge>, scope: Scope, maxNodes: int,
      maxEdges: int)
    requires Acceptable(Snapshot(nodes, edges, s.current), scope, maxNodes, maxEdges)
    requires multiset(s.nodes) == multiset(nodes) && multiset(s.edges) == multiset(edges)
    ensures Acceptable(s, scope, maxNodes, maxEdges)
  {
    hide NodeOk, OutcomesOk, CitedOnce;
    PermutedNodes(s.nodes, nodes);
    PermutedEdges(s.edges, edges);
    ReceiptsIgnoreOrder(s.edges, edges);
    PermutedCovers(s.nodes, nodes);
    forall i | 0 <= i < |s.nodes| ensures NodeOk(s.nodes[i], scope, maxEdges) {
      assert s.nodes[i] in nodes;
    }
    var m: nat := maxEdges;
    EdgesStayOk(edges, nodes, s.nodes, m, m);
    EdgesOkReordered(s.edges, edges, s.nodes, m);
    PermutedHasNode(s, nodes);
  }

  lemma PermutedCovers(xs: seq<Node>, ys: seq<Node>)
    requires forall x :: x in xs <==> x in ys
    ensures Covers(xs, ys)
  {
    forall k, o | HasNodeSeeing(ys, k, o) ensures HasNodeSeeing(xs, k, o) {
      var i :| 0 <= i < |ys| && ys[i].key == k && ys[i].observation == o;
      assert ys[i] in xs;
    }
  }

  lemma PermutedHasNode(s: Snapshot, nodes: seq<Node>)
    requires |s.nodes| == |nodes| && forall x :: x in s.nodes <==> x in nodes
    requires CurrentOk(s.current, nodes)
    ensures CurrentOk(s.current, s.nodes)
  {
    if s.current.Some? {
      var i :| 0 <= i < |nodes| && nodes[i].key == s.current.value;
      assert nodes[i] in s.nodes;
    }
  }

  lemma EdgesOkReordered(xs: seq<Edge>, ys: seq<Edge>, nodes: seq<Node>, m: nat)
    requires EdgesOk(ys, nodes, m) && EdgeReceipts(xs) == EdgeReceipts(ys) && forall x :: x in xs <==> x in ys
    requires forall i, j :: 0 <= i < j < |xs| ==> xs[i].key != xs[j].key
    ensures EdgesOk(xs, nodes, m)
  {
    hide EdgeOk, EdgeReceipts;
    forall i | 0 <= i < |xs| ensures EdgeOk(xs[i], nodes, m) {
      assert xs[i] in ys;
    }
  }

  /** The graph of a run, in any order of nodes and edges, passes every check on its steps. */
  lemma RunStepIsAccepted(scope: Scope, obs: seq<Observation>, receipts: seq<Receipt>, g: Snapshot, k: nat)
    requires |obs| == |receipts| + 1 && IsRun(scope, obs, receipts) && SameGraph(g, scope, obs, receipts)
    requires 1 <= k <= |receipts|
    ensures StepAccepted(scope, g, receipts[k - 1])
  {
    hide RunNode, Genuine, Lookup, LookupEdge;
    var n := |receipts|;
    var from, to, e := RunNode(scope, obs, receipts, k - 1), RunNode(scope, obs, receipts, k),
        RunEdge(scope, obs, receipts, k);
    RunKeysAreDistinct(scope, obs, receipts);
    PermutedNodes(g.nodes, RunNodes(scope, obs, receipts, n));
    PermutedEdges(g.edges, RunEdges(scope, obs, receipts, n));
    assert RunNodes(scope, obs, receipts, n)[k - 1] == from && RunNodes(scope, obs, receipts, n)[k] == to;
    assert RunEdges(scope, obs, receipts, n)[k - 1] == e;
    LookupUnique(g.nodes, from);
    LookupUnique(g.nodes, to);
    LookupEdgeUnique(g.edges, e);
    assert Describes(scope, obs, receipts, k);
    RunNodeFields(scope, obs, receipts, k);
    RunNodeFields(scope, obs, receipts, k - 1);
  }

  lemma RunNodeFields(scope: Scope, obs: seq<Observation>, receipts: seq<Receipt>, k: nat)
    requires k <= |receipts| && |obs| == |receipts| + 1
    ensures var n := RunNode(scope, obs, receipts, k);
            && Shows(n, obs[k]) && n.visits == 1 && n.scope == scope
            && n.key == KeyOf(scope, obs[k].hash, n.latent)
            && n.latent == if k == 0 then Genesis(obs[0].hash)
               else var from := RunNode(scope, obs, receipts, k - 1); Step(from.latent, from.key,
                     receipts[k - 1].action, obs[k].hash, k)
  {
  }

  lemma RunIsAcceptable(scope: Scope, obs: seq<Observation>, receipts: seq<Receipt>, g: Snapshot)
    requires |obs| == |receipts| + 1
    requires IsRun(scope, obs, receipts) && SameGraph(g, scope, obs, receipts) && g.current.Some?
    requires HasNode(g.nodes, g.current.value)
    ensures Acceptable(g, scope, |receipts| + 1, |receipts|)
    ensures |g.nodes| == |receipts| + 1 && |g.edges| == |receipts|
  {
    hide IsRun, RunGraph, NodesOk, EdgesOk;
    var n := |receipts|;
    var nodes, edges := RunNodes(scope, obs, receipts, n), RunEdges(scope, obs, receipts, n);
    RunIsSound(scope, obs, receipts, n);
    EveryKeyIsFresh(scope, obs, receipts, n);
    RunKeysAreDistinct(scope, obs, receipts);
    PermutedNodes(g.nodes, nodes);
    PermutedEdges(g.edges, edges);
    PermutedHasNode(Snapshot(nodes, edges, g.current), g.nodes);
    AcceptableIgnoresOrder(g, nodes, edges, scope, n + 1, n);
  }

  /** What the checkpoint says of the current belief when no receipt fixes it. */
  ghost predicate CurrentFits(scope: Scope, o: Observation, g: Snapshot, obs: seq<Observation>, receipts: seq<Receipt>)
    requires |obs| == |receipts| + 1
  {
    && g.current.Some? && HasNode(g.nodes, g.current.value)
    && (receipts == [] ==>
          && g.current == Some(RunNode(scope, obs, receipts, 0).key)
          && Shows(RunNode(scope, obs, receipts, 0), o))
  }

  lemma RunIsAccepted(scope: Scope, o: Observation, obs: seq<Observation>, receipts: seq<Receipt>, g: Snapshot)
    requires |obs| == |receipts| + 1
    requires IsRun(scope, obs, receipts) && SameGraph(g, scope, obs, receipts)
    requires CurrentFits(scope, o, g, obs, receipts)
    ensures HistoryAccepted(scope, o, g, receipts)
  {
    hide IsRun, SameGraph, Acceptable, StepAccepted, GenesisAccepted, RunNode;
    RunIsAcceptable(scope, obs, receipts, g);
    forall i | 0 <= i < |receipts| ensures StepAccepted(scope, g, receipts[i]) {
      RunStepIsAccepted(scope, obs, receipts, g, i + 1);
    }
    RunGenesisIsAccepted(scope, o, obs, receipts, g);
  }

  lemma RunGenesisIsAccepted(scope: Scope, o: Observation, obs: seq<Observation>, receipts: seq<Receipt>, g: Snapshot)
    requires |obs| == |receipts| + 1
    requires IsRun(scope, obs, receipts) && SameGraph(g, scope, obs, receipts)
    requires CurrentFits(scope, o, g, obs, receipts)
    ensures GenesisAccepted(scope, o, g, receipts)
  {
    hide Genuine, Lookup, RunEdges;
    var nodes := RunNodes(scope, obs, receipts, |receipts|);
    RunKeysAreDistinct(scope, obs, receipts);
    PermutedNodes(g.nodes, nodes);
    assert nodes[0] == RunNode(scope, obs, receipts, 0);
    LookupUnique(g.nodes, nodes[0]);
    assert receipts != [] ==> Describes(scope, obs, receipts, 1);
  }

  // ---------------------------------------------------------------- soundness

  function KeyAt(receipts: seq<Receipt>, k: nat): BeliefKey
    requires receipts != [] && k <= |receipts|
  {
    if k == 0 then receipts[0].preBelief else receipts[k - 1].postBelief
  }

  ghost predicate StepsAccepted(scope: Scope, g: Snapshot, receipts: seq<Receipt>) {
    receipts != [] && Contiguous(receipts) && forall i :: 0 <= i < |receipts| ==> StepAccepted(scope, g, receipts[i])
  }

  function Chosen(scope: Scope, g: Snapshot, receipts: seq<Receipt>, k: nat): (n: Node)
    requires StepsAccepted(scope, g, receipts) && k <= |receipts|
    ensures n in g.nodes && n.key == KeyAt(receipts, k)
  {
    assert StepAccepted(scope, g, receipts[if k == 0 then 0 else k - 1]);
    Lookup(g.nodes, KeyAt(receipts, k)).value
  }

  lemma ChosenStep(scope: Scope, g: Snapshot, receipts: seq<Receipt>, k: nat)
    requires StepsAccepted(scope, g, receipts) && 1 <= k <= |receipts|
    ensures NodesMatch(scope, Chosen(scope, g, receipts, k - 1), Chosen(scope, g, receipts, k), receipts[k - 1])
    ensures receipts[k - 1].preBelief == KeyAt(receipts, k - 1) && receipts[k - 1].sequence == k
  {
    assert StepAccepted(scope, g, receipts[k - 1]);
    if k > 1 {
      assert receipts[k - 2 + 1].preBelief == receipts[k - 2].postBelief;
    }
  }

  lemma {:induction false} ChosenDepth(scope: Scope, g: Snapshot, receipts: seq<Receipt>, k: nat)
    requires StepsAccepted(scope, g, receipts) && k <= |receipts|
    ensures Depth(Chosen(scope, g, receipts, k).latent) == Depth(Chosen(scope, g, receipts, 0).latent) + k
    ensures Chosen(scope, g, receipts, k).key
            == KeyOf(scope, Chosen(scope, g, receipts, k).observation, Chosen(scope, g, receipts, k).latent) || k == 0
  {
    hide StepsAccepted, Chosen;
    if k > 0 {
      ChosenDepth(scope, g, receipts, k - 1);
      ChosenStep(scope, g, receipts, k);
    }
  }

  lemma ChosenKeysDiffer(scope: Scope, g: Snapshot, receipts: seq<Receipt>, i: nat, j: nat)
    requires StepsAccepted(scope, g, receipts) && i < j <= |receipts|
    ensures Chosen(scope, g, receipts, i) != Chosen(scope, g, receipts, j)
  {
    hide StepsAccepted, Chosen;
    ChosenDepth(scope, g, receipts, i);
    ChosenDepth(scope, g, receipts, j);
  }

  function ChosenNodes(scope: Scope, g: Snapshot, receipts: seq<Receipt>): (ns: seq<Node>)
    requires StepsAccepted(scope, g, receipts)
    ensures |ns| == |receipts| + 1
  {
    seq(|receipts| + 1, i requires 0 <= i <= |receipts| => Chosen(scope, g, receipts, i))
  }

  /** The nodes the receipts name are all the nodes there are. */
  lemma ChosenNodesAreAll(scope: Scope, g: Snapshot, receipts: seq<Receipt>)
    requires StepsAccepted(scope, g, receipts) && |g.nodes| == |receipts| + 1
    ensures multiset(ChosenNodes(scope, g, receipts)) == multiset(g.nodes)
  {
    hide StepsAccepted, Chosen;
    var ns := ChosenNodes(scope, g, receipts);
    forall i, j | 0 <= i < j < |ns| ensures ns[i] != ns[j] {
      ChosenKeysDiffer(scope, g, receipts, i, j);
    }
    CoveringIsPermutation(ns, g.nodes);
  }

  /** Only the first node can be the genesis: every other one remembers a predecessor. */
  lemma GenesisIsFirst(scope: Scope, o: Observation, g: Snapshot, receipts: seq<Receipt>)
    requires StepsAccepted(scope, g, receipts) && |g.nodes| == |receipts| + 1 && GenesisAccepted(scope, o, g, receipts)
    ensures Chosen(scope, g, receipts, 0).key == GenesisKey(scope, receipts[0].preObservation)
    ensures Chosen(scope, g, receipts, 0).latent == Genesis(receipts[0].preObservation)
  {
    var n := Lookup(g.nodes, GenesisKey(scope, receipts[0].preObservation)).value;
    ChosenNodesAreAll(scope, g, receipts);
    var ns := ChosenNodes(scope, g, receipts);
    hide StepsAccepted, Chosen, Lookup;
    forall k | 1 <= k <= |receipts| ensures ns[k].latent.Step? {
      ChosenStep(scope, g, receipts, k);
    }
    assert n in multiset(ns);
    var j :| 0 <= j < |ns| && ns[j] == n;
  }

  function WinLevels(h: ObservationHash): int {
    if h.HashOf? then h.winLevels else 0
  }

  function Witness(scope: Scope, n: Node): Observation {
    Observation(scope.game, n.observation, n.frame, n.state, n.levels, WinLevels(n.observation), n.actions)
  }

  function Witnesses(scope: Scope, g: Snapshot, receipts: seq<Receipt>): (obs: seq<Observation>)
    requires StepsAccepted(scope, g, receipts)
    ensures |obs| == |receipts| + 1
  {
    seq(|receipts| + 1, i requires 0 <= i <= |receipts| => Witness(scope, Chosen(scope, g, receipts, i)))
  }

  ghost predicate AllAccepted(scope: Scope, o: Observation, g: Snapshot, receipts: seq<Receipt>) {
    receipts != [] && Contiguous(receipts) && HistoryAccepted(scope, o, g, receipts)
  }

  lemma AcceptedSteps(scope: Scope, o: Observation, g: Snapshot, receipts: seq<Receipt>)
    requires AllAccepted(scope, o, g, receipts)
    ensures StepsAccepted(scope, g, receipts) && |g.nodes| == |receipts| + 1 && |g.edges| == |receipts|
    ensures GenesisAccepted(scope, o, g, receipts) && NodesOk(g.nodes, scope, |receipts|)
    ensures EdgesOk(g.edges, g.nodes, |receipts|)
    ensures CurrentOk(g.current, g.nodes)
  {
    hide StepAccepted, GenesisAccepted, NodesOk, EdgesOk, CurrentOk;
  }

  lemma ChosenNodeIsOk(scope: Scope, g: Snapshot, receipts: seq<Receipt>, k: nat, maxEdges: int)
    requires StepsAccepted(scope, g, receipts) && k <= |receipts| && NodesOk(g.nodes, scope, maxEdges)
    ensures NodeOk(Chosen(scope, g, receipts, k), scope, maxEdges)
    ensures Chosen(scope, g, receipts, k).visits == 1
  {
    hide StepsAccepted, NodeOk, Chosen;
    var n := Chosen(scope, g, receipts, k);
    if k > 0 {
      ChosenStep(scope, g, receipts, k);
    } else {
      StepsAcceptedSome(scope, g, receipts);
      ChosenStep(scope, g, receipts, 1);
    }
  }

  lemma StepsAcceptedSome(scope: Scope, g: Snapshot, receipts: seq<Receipt>)
    requires StepsAccepted(scope, g, receipts)
    ensures |receipts| >= 1
  {
  }

  /** Replaying the observations read off the accepted nodes gives those nodes back. */
  lemma {:induction false} ChosenIsRun(scope: Scope, o: Observation, g: Snapshot, receipts: seq<Receipt>, k: nat)
    requires AllAccepted(scope, o, g, receipts) && k <= |receipts|
    ensures StepsAccepted(scope, g, receipts)
    ensures RunNode(scope, Witnesses(scope, g, receipts), receipts, k) == Chosen(scope, g, receipts, k)
  {
    AcceptedSteps(scope, o, g, receipts);
    ChosenNodeIsOk(scope, g, receipts, k, |receipts|);
    hide AllAccepted, StepsAccepted, Chosen, NodesOk, EdgesOk, GenesisAccepted, CurrentOk;
    if k == 0 {
      GenesisIsFirst(scope, o, g, receipts);
    } else {
      ChosenIsRun(scope, o, g, receipts, k - 1);
      ChosenStep(scope, g, receipts, k);
    }
  }

  function ChosenEdge(scope: Scope, g: Snapshot, receipts: seq<Receipt>, k: nat): (e: Edge)
    requires StepsAccepted(scope, g, receipts) && 1 <= k <= |receipts|
    ensures e in g.edges && e.key == EdgeOf(Chosen(scope, g, receipts, k - 1).key, receipts[k - 1].action)
    ensures EdgeMatches(e, Chosen(scope, g, receipts, k), receipts[k - 1])
  {
    ChosenStep(scope, g, receipts, k);
    assert StepAccepted(scope, g, receipts[k - 1]);
    LookupEdge(g.edges, EdgeOf(Chosen(scope, g, receipts, k - 1).key, receipts[k - 1].action)).value
  }

  lemma ChosenEdgeIsOk(scope: Scope, g: Snapshot, receipts: seq<Receipt>, k: nat, maxEdges: int)
    requires StepsAccepted(scope, g, receipts) && 1 <= k <= |receipts| && EdgesOk(g.edges, g.nodes, maxEdges)
    ensures var e := ChosenEdge(scope, g, receipts, k);
            e.from == Chosen(scope, g, receipts, k - 1).key && ValidAction(e.action)
  {
    hide StepsAccepted, Chosen, OutcomesOk, CitedOnce, HasNodeSeeing;
    var e := ChosenEdge(scope, g, receipts, k);
    var i :| 0 <= i < |g.edges| && g.edges[i] == e;
    assert EdgeOk(g.edges[i], g.nodes, maxEdges);
  }

  lemma ChosenEdgeIsRun(scope: Scope, o: Observation, g: Snapshot, receipts: seq<Receipt>, k: nat)
    requires AllAccepted(scope, o, g, receipts) && 1 <= k <= |receipts|
    ensures StepsAccepted(scope, g, receipts)
    ensures RunEdge(scope, Witnesses(scope, g, receipts), receipts, k) in g.edges
    ensures ValidAction(receipts[k - 1].action)
  {
    hide AllAccepted, StepsAccepted, HistoryAccepted, StepAccepted, Chosen, NodesOk, EdgesOk, GenesisAccepted,
      CurrentOk, RunNode, Witnesses, ValidAction;
    AcceptedSteps(scope, o, g, receipts);
    ChosenIsRun(scope, o, g, receipts, k);
    ChosenIsRun(scope, o, g, receipts, k - 1);
    ChosenStep(scope, g, receipts, k);
    ChosenEdgeIsOk(scope, g, receipts, k, |receipts|);
    assert ChosenEdge(scope, g, receipts, k) == RunEdge(scope, Witnesses(scope, g, receipts), receipts, k);
  }

  lemma AcceptedNodesAreRun(scope: Scope, o: Observation, g: Snapshot, receipts: seq<Receipt>)
    requires AllAccepted(scope, o, g, receipts)
    ensures StepsAccepted(scope, g, receipts)
    ensures multiset(g.nodes) == multiset(RunNodes(scope, Witnesses(scope, g, receipts), receipts, |receipts|))
  {
    AcceptedSteps(scope, o, g, receipts);
    hide *;
    ChosenNodesAreAll(scope, g, receipts);
    NodesAreChosen(scope, o, g, receipts);
  }

  lemma NodesAreChosen(scope: Scope, o: Observation, g: Snapshot, receipts: seq<Receipt>)
    requires AllAccepted(scope, o, g, receipts)
    ensures StepsAccepted(scope, g, receipts)
    ensures RunNodes(scope, Witnesses(scope, g, receipts), receipts, |receipts|) == ChosenNodes(scope, g, receipts)
  {
    AcceptedSteps(scope, o, g, receipts);
    hide AllAccepted, StepsAccepted, Chosen, NodesOk, EdgesOk, GenesisAccepted, CurrentOk, RunNode, Witnesses;
    forall i | 0 <= i <= |receipts|
      ensures RunNode(scope, Witnesses(scope, g, receipts), receipts, i) == Chosen(scope, g, receipts, i)
    {
      ChosenIsRun(scope, o, g, receipts, i);
    }
  }

  lemma RunEdgeIsThere(scope: Scope, o: Observation, g: Snapshot, receipts: seq<Receipt>, i: nat)
    requires AllAccepted(scope, o, g, receipts) && i < |receipts|
    ensures StepsAccepted(scope, g, receipts)
    ensures RunEdges(scope, Witnesses(scope, g, receipts), receipts, |receipts|)[i] in g.edges
  {
    hide AllAccepted, StepsAccepted, RunEdge, Witnesses;
    ChosenEdgeIsRun(scope, o, g, receipts, i + 1);
  }

  lemma AcceptedEdgesAreRun(scope: Scope, o: Observation, g: Snapshot, receipts: seq<Receipt>)
    requires AllAccepted(scope, o, g, receipts)
    ensures StepsAccepted(scope, g, receipts)
    ensures multiset(g.edges) == multiset(RunEdges(scope, Witnesses(scope, g, receipts), receipts, |receipts|))
  {
    AcceptedSteps(scope, o, g, receipts);
    hide AllAccepted, StepsAccepted, NodesOk, EdgesOk, GenesisAccepted, CurrentOk, RunEdges, RunNodes, Witnesses;
    var obs := Witnesses(scope, g, receipts);
    var edges := RunEdges(scope, obs, receipts, |receipts|);
    RunKeysAreDistinct(scope, obs, receipts);
    forall i | 0 <= i < |edges| ensures edges[i] in g.edges {
      RunEdgeIsThere(scope, o, g, receipts, i);
    }
    CoveringIsPermutation(edges, g.edges);
  }

  lemma AcceptedIsSameGraph(scope: Scope, o: Observation, g: Snapshot, receipts: seq<Receipt>)
    requires AllAccepted(scope, o, g, receipts)
    ensures StepsAccepted(scope, g, receipts)
    ensures SameGraph(g, scope, Witnesses(scope, g, receipts), receipts)
  {
    hide AllAccepted, StepsAccepted, RunEdges, RunNodes, Witnesses;
    AcceptedNodesAreRun(scope, o, g, receipts);
    AcceptedEdgesAreRun(scope, o, g, receipts);
  }

  lemma AcceptedHashesDiffer(scope: Scope, o: Observation, g: Snapshot, receipts: seq<Receipt>)
    requires AllAccepted(scope, o, g, receipts)
    ensures forall i, j :: 0 <= i < j < |receipts| ==> receipts[i].hash != receipts[j].hash
  {
    AcceptedSteps(scope, o, g, receipts);
    AcceptedIsSameGraph(scope, o, g, receipts);
    hide AllAccepted, StepsAccepted, NodesOk, GenesisAccepted, CurrentOk, RunNode, RunEdge, EdgeOk, EdgeReceipts;
    var obs, n, hs := Witnesses(scope, g, receipts), |receipts|, Hashes(receipts);
    ReceiptsIgnoreOrder(g.edges, RunEdges(scope, obs, receipts, n));
    RunReceipts(scope, obs, receipts, n);
    assert hs[..n] == hs;
    forall i, j | 0 <= i < j < |receipts| ensures receipts[i].hash != receipts[j].hash {
      TwiceIsTwo(hs, i, j);
    }
  }

  lemma TwiceIsTwo(hs: seq<Hash>, i: nat, j: nat)
    requires i < j < |hs| && CitedOnce(multiset(hs))
    ensures hs[i] != hs[j]
  {
    assert hs == hs[..j] + [hs[j]] + hs[j + 1..];
    assert hs[i] in hs[..j];
    assert hs[i] in multiset(hs[..j]);
    assert multiset(hs)[hs[j]] <= 1;
  }

  /** A node records what its observation hash commits to. */
  ghost predicate Sincere(scope: Scope, n: Node) {
    && n.observation == HashOf(scope.game, n.state, n.levels, WinLevels(n.observation), n.actions, n.frame)
    && WinLevels(n.observation) >= 0 && Alphabetical(n.actions)
  }

  /** A receipt's action was on offer at the node it left. */
  predicate Offered(nodes: seq<Node>, r: Receipt) {
    match Lookup(nodes, r.preBelief)
    case None => false
    case Some(n) => n.state == NOT_FINISHED ==> r.action.name in n.actions
  }

  /** What the validator does not look at: the hash behind each node, and whether its actions were on offer. */
  ghost predicate Honest(scope: Scope, g: Snapshot, receipts: seq<Receipt>) {
    && (forall i :: 0 <= i < |g.nodes| ==> Sincere(scope, g.nodes[i]))
    && (forall i :: 0 <= i < |receipts| ==> Offered(g.nodes, receipts[i]))
  }

  lemma ChosenIsOffered(scope: Scope, g: Snapshot, receipts: seq<Receipt>, k: nat)
    requires StepsAccepted(scope, g, receipts) && 1 <= k <= |receipts| && Honest(scope, g, receipts)
    ensures var from := Chosen(scope, g, receipts, k - 1);
            Sincere(scope, from) && Legal(from.state, from.actions, receipts[k - 1].action.name)
  {
    hide StepAccepted, Sincere;
    ChosenStep(scope, g, receipts, k);
    assert Offered(g.nodes, receipts[k - 1]) && LinkOk(receipts[k - 1], k);
    ChosenIsSincere(scope, g, receipts, k - 1);
  }

  lemma ChosenIsSincere(scope: Scope, g: Snapshot, receipts: seq<Receipt>, k: nat)
    requires StepsAccepted(scope, g, receipts) && k <= |receipts| && Honest(scope, g, receipts)
    ensures Sincere(scope, Chosen(scope, g, receipts, k))
  {
    hide StepsAccepted, Sincere, Chosen, Offered;
    var n := Chosen(scope, g, receipts, k);
    var i :| 0 <= i < |g.nodes| && g.nodes[i] == n;
  }

  lemma SincereIsGenuine(scope: Scope, n: Node, maxEdges: int)
    requires NodeOk(n, scope, maxEdges) && Sincere(scope, n)
    ensures Genuine(scope, Witness(scope, n))
  {
    hide ValidActions, Alphabetical;
  }

  lemma AcceptedIsRun(scope: Scope, o: Observation, g: Snapshot, receipts: seq<Receipt>)
    requires AllAccepted(scope, o, g, receipts) && Honest(scope, g, receipts)
    ensures StepsAccepted(scope, g, receipts) && IsRun(scope, Witnesses(scope, g, receipts), receipts)
  {
    AcceptedSteps(scope, o, g, receipts);
    AcceptedHashesDiffer(scope, o, g, receipts);
    hide AllAccepted, StepsAccepted, Honest, Describes, Genuine, Chosen, Witness, NodesOk, EdgesOk, GenesisAccepted,
      CurrentOk;
    var obs := Witnesses(scope, g, receipts);
    forall k | 0 <= k <= |receipts| ensures Genuine(scope, obs[k]) {
      ChosenNodeIsOk(scope, g, receipts, k, |receipts|);
      ChosenIsSincere(scope, g, receipts, k);
      SincereIsGenuine(scope, Chosen(scope, g, receipts, k), |receipts|);
    }
    forall k | 1 <= k <= |receipts| ensures Describes(scope, obs, receipts, k) {
      AcceptedDescribes(scope, o, g, receipts, k);
    }
  }

  lemma AcceptedDescribes(scope: Scope, o: Observation, g: Snapshot, receipts: seq<Receipt>, k: nat)
    requires AllAccepted(scope, o, g, receipts) && 1 <= k <= |receipts| && Honest(scope, g, receipts)
    ensures StepsAccepted(scope, g, receipts) && Describes(scope, Witnesses(scope, g, receipts), receipts, k)
  {
    hide *;
    AcceptedSteps(scope, o, g, receipts);
    ChosenIsRun(scope, o, g, receipts, k);
    ChosenIsRun(scope, o, g, receipts, k - 1);
    ChosenStep(scope, g, receipts, k);
    ChosenEdgeIsRun(scope, o, g, receipts, k);
    ChosenIsOffered(scope, g, receipts, k);
    ChosenLink(scope, o, g, receipts, k);
    WitnessesAre(scope, g, receipts);
    DescribesFrom(scope, Witnesses(scope, g, receipts), receipts, k, Chosen(scope, g, receipts, k - 1),
          Chosen(scope, g, receipts, k));
  }

  lemma DescribesFrom(scope: Scope, obs: seq<Observation>, receipts: seq<Receipt>, k: nat, from: Node, to: Node)
    requires 1 <= k <= |receipts| && |obs| == |receipts| + 1
    requires RunNode(scope, obs, receipts, k - 1) == from && RunNode(scope, obs, receipts, k) == to
    requires obs[k - 1] == Witness(scope, from) && obs[k] == Witness(scope, to)
    requires var r := receipts[k - 1];
             && NodesMatch(scope, from, to, r) && r.sequence == k && ValidAction(r.action)
             && r.preBelief == from.key && r.postBelief == to.key
             && r.noEffect == (r.preObservation == r.postObservation) && Legal(from.state, from.actions, r.action.name)
    ensures Describes(scope, obs, receipts, k)
  {
    hide RunNode, ValidAction, Legal;
  }

  lemma ChosenLink(scope: Scope, o: Observation, g: Snapshot, receipts: seq<Receipt>, k: nat)
    requires AllAccepted(scope, o, g, receipts) && StepsAccepted(scope, g, receipts) && 1 <= k <= |receipts|
    ensures var r := receipts[k - 1];
            && r.preBelief == Chosen(scope, g, receipts, k - 1).key && r.postBelief == Chosen(scope, g, receipts, k).key
            && r.noEffect == (r.preObservation == r.postObservation)
  {
    hide HistoryAccepted, StepAccepted;
    AcceptedLink(receipts, k);
    ChosenStep(scope, g, receipts, k);
  }

  lemma WitnessesAre(scope: Scope, g: Snapshot, receipts: seq<Receipt>)
    requires StepsAccepted(scope, g, receipts)
    ensures forall i :: 0 <= i <= |receipts| ==>
            Witnesses(scope, g, receipts)[i] == Witness(scope, Chosen(scope, g, receipts, i))
  {
    hide StepsAccepted, Chosen, Witness;
  }

  lemma AcceptedLink(receipts: seq<Receipt>, k: nat)
    requires Contiguous(receipts) && 1 <= k <= |receipts|
    ensures receipts[k - 1].noEffect == (receipts[k - 1].preObservation == receipts[k - 1].postObservation)
  {
    assert LinkOk(receipts[k - 1], k);
  }

  // ---------------------------------------------------------------- the main results

  /** Some run made these receipts and left this graph, up to the order of its nodes and edges. */
  ghost predicate FromRun(scope: Scope, o: Observation, g: Snapshot, obs: seq<Observation>, receipts: seq<Receipt>) {
    |obs| == |receipts| + 1 && IsRun(scope, obs, receipts) && SameGraph(g, scope, obs, receipts)
        && CurrentFits(scope, o, g, obs, receipts)
  }

  lemma AcceptedWithoutReceipts(scope: Scope, o: Observation, g: Snapshot) returns (first: Observation)
    requires HistoryAccepted(scope, o, g, []) && Honest(scope, g, [])
    ensures FromRun(scope, o, g, [first], [])
  {
    hide Lookup;
    var n := Lookup(g.nodes, GenesisKey(scope, o.hash)).value;
    assert g.nodes[0] in g.nodes;
    assert g.nodes == [n] && NodeOk(n, scope, 0) && Sincere(scope, g.nodes[0]);
    first := Witness(scope, n);
    SincereIsGenuine(scope, n, 0);
    assert n == RunNode(scope, [first], [], 0);
    assert g.nodes == RunNodes(scope, [first], [], 0) && g.edges == RunEdges(scope, [first], [], 0);
  }

  /** The nodes of a run record what they saw, and its actions were on offer. */
  lemma RunIsHonest(scope: Scope, obs: seq<Observation>, receipts: seq<Receipt>, g: Snapshot)
    requires |obs| == |receipts| + 1 && IsRun(scope, obs, receipts) && SameGraph(g, scope, obs, receipts)
    ensures Honest(scope, g, receipts)
  {
    hide IsRun, SameGraph, Sincere, Offered;
    var ns := RunNodes(scope, obs, receipts, |receipts|);
    RunNodesAre(scope, obs, receipts, g);
    forall i | 0 <= i < |g.nodes| ensures Sincere(scope, g.nodes[i]) {
      assert g.nodes[i] in ns;
      var k :| 0 <= k < |ns| && ns[k] == g.nodes[i];
      RunNodeIsSincere(scope, obs, receipts, k);
    }
    forall i | 0 <= i < |receipts| ensures Offered(g.nodes, receipts[i]) {
      RunIsOffered(scope, obs, receipts, g, i);
    }
  }

  lemma RunNodesAre(scope: Scope, obs: seq<Observation>, receipts: seq<Receipt>, g: Snapshot)
    requires |obs| == |receipts| + 1 && SameGraph(g, scope, obs, receipts)
    ensures forall n :: n in g.nodes <==> n in RunNodes(scope, obs, receipts, |receipts|)
    ensures forall k :: 0 <= k <= |receipts| ==>
            Lookup(g.nodes, RunNode(scope, obs, receipts, k).key) == Some(RunNode(scope, obs, receipts, k))
  {
    hide RunNode, RunEdges, Lookup;
    var ns := RunNodes(scope, obs, receipts, |receipts|);
    RunKeysAreDistinct(scope, obs, receipts);
    PermutedNodes(g.nodes, ns);
    forall k | 0 <= k <= |receipts|
      ensures Lookup(g.nodes, RunNode(scope, obs, receipts, k).key) == Some(RunNode(scope, obs, receipts, k))
    {
      assert ns[k] == RunNode(scope, obs, receipts, k) && ns[k] in g.nodes;
      LookupUnique(g.nodes, ns[k]);
    }
  }

  lemma RunNodeIsSincere(scope: Scope, obs: seq<Observation>, receipts: seq<Receipt>, k: nat)
    requires |obs| == |receipts| + 1 && IsRun(scope, obs, receipts) && k <= |receipts|
    ensures Sincere(scope, RunNode(scope, obs, receipts, k))
  {
    hide RunNode, Describes, ValidActions, Alphabetical;
    RunNodeFields(scope, obs, receipts, k);
    assert Genuine(scope, obs[k]);
  }

  lemma RunIsOffered(scope: Scope, obs: seq<Observation>, receipts: seq<Receipt>, g: Snapshot, i: nat)
    requires |obs| == |receipts| + 1 && IsRun(scope, obs, receipts) && SameGraph(g, scope, obs, receipts)
    requires i < |receipts|
    ensures Offered(g.nodes, receipts[i])
  {
    hide RunNode, Genuine, SameGraph, Lookup, RunNodes, SuitsState;
    RunNodesAre(scope, obs, receipts, g);
    RunNodeFields(scope, obs, receipts, i);
    assert Describes(scope, obs, receipts, i + 1);
  }

  /**
   * The validator accepts the belief graph of every real run over the receipts, and accepts others only
   * where a node's contents belie its observation hash or an action was not on offer.
   */
  lemma HistoryIsExact(scope: Scope, o: Observation, g: Snapshot, receipts: seq<Receipt>)
    requires Contiguous(receipts)
    ensures HistoryAccepted(scope, o, g, receipts) && Honest(scope, g, receipts) <==>
            exists obs :: FromRun(scope, o, g, obs, receipts)
  {
    hide HistoryAccepted, Honest, IsRun, SameGraph;
    if HistoryAccepted(scope, o, g, receipts) && Honest(scope, g, receipts) {
      if receipts == [] {
        var first := AcceptedWithoutReceipts(scope, o, g);
      } else {
        AcceptedSteps(scope, o, g, receipts);
        AcceptedIsRun(scope, o, g, receipts);
        AcceptedIsSameGraph(scope, o, g, receipts);
        assert FromRun(scope, o, g, Witnesses(scope, g, receipts), receipts);
      }
    }
    if obs :| FromRun(scope, o, g, obs, receipts) {
      RunIsAccepted(scope, o, obs, receipts, g);
      RunIsHonest(scope, obs, receipts, g);
    }
  }

  /**
   * The validator alone leaves the current belief open once there are receipts: pointing an accepted
   * graph at any other of its nodes keeps it accepted.
   */
  lemma CurrentIsNotChecked(scope: Scope, o: Observation, g: Snapshot, receipts: seq<Receipt>, key: BeliefKey)
    requires HistoryAccepted(scope, o, g, receipts) && receipts != [] && HasNode(g.nodes, key)
    ensures HistoryAccepted(scope, o, g.(current := Some(key)), receipts)
  {
    hide NodesOk, EdgesOk, Lookup, LookupEdge;
    var h := g.(current := Some(key));
    forall i | 0 <= i < |receipts| ensures StepAccepted(scope, h, receipts[i]) {
      assert StepAccepted(scope, g, receipts[i]);
    }
  }

  // ---------------------------------------------------------------- episodes

  datatype Effect = NO_EFFECT | GRID_CHANGE | PROGRESS | TERMINAL

  datatype Episode = Episode(
    sequence: int, receipt: Hash, preBelief: BeliefKey, postBelief: BeliefKey,
    preObservation: ObservationHash, postObservation: ObservationHash,
    action: Action, effect: Effect, progress: int, noEffect: bool)

  ghost function EpisodeOf(r: Receipt, effect: Effect): Episode {
    Episode(r.sequence, r.hash, r.preBelief, r.postBelief, r.preObservation, r.postObservation, r.action, effect,
            r.levelsAfter - r.levelsBefore, r.noEffect)
  }

  /** How the controller classes a transition it has seen. */
  ghost function EffectClass(before: Observation, after: Observation): Effect {
    if after.state == WIN || after.state == GAME_OVER then TERMINAL
    else if after.levels != before.levels then PROGRESS
    else if after.frame != before.frame then GRID_CHANGE
    else NO_EFFECT
  }

  /** How the checkpoint validator classes it again, from the receipt and the node it left. */
  ghost function EffectSeen(nodes: seq<Node>, r: Receipt): Effect {
    if r.stateAfter == WIN || r.stateAfter == GAME_OVER then TERMINAL
    else if r.levelsAfter != r.levelsBefore then PROGRESS
    else
      match Lookup(nodes, r.preBelief)
      case Some(n) => if r.frames != [] && n.frame != r.frames[|r.frames| - 1] then GRID_CHANGE else NO_EFFECT
      case None => NO_EFFECT
  }

  ghost predicate EpisodesMatch(nodes: seq<Node>, receipts: seq<Receipt>, episodes: seq<Episode>) {
    && |episodes| == |receipts|
    && forall i :: 0 <= i < |receipts| ==> episodes[i] == EpisodeOf(receipts[i], EffectSeen(nodes, receipts[i]))
  }

  /** The episodes a run records. */
  ghost function RunEpisodes(obs: seq<Observation>, receipts: seq<Receipt>): (es: seq<Episode>)
    requires |obs| == |receipts| + 1
    ensures |es| == |receipts|
  {
    seq(|receipts|, i requires 0 <= i < |receipts| => EpisodeOf(receipts[i], EffectClass(obs[i], obs[i + 1])))
  }

  // ---------------------------------------------------------------- the cross-field checks

  /** The history, and the checks that follow it in the checkpoint's cross-field validation. */
  ghost predicate CrossFieldsAccepted(scope: Scope, o: Observation, g: Snapshot, receipts: seq<Receipt>,
      episodes: seq<Episode>) {
    && o.game == scope.game
    && HistoryAccepted(scope, o, g, receipts)
    && EndMatches(o, g, receipts)
    && EpisodesMatch(g.nodes, receipts, episodes)
  }

  ghost predicate EndMatches(o: Observation, g: Snapshot, receipts: seq<Receipt>) {
    && (receipts != [] ==>
          var last := receipts[|receipts| - 1];
          o.hash == last.postObservation && o.state == last.stateAfter && o.levels == last.levelsAfter)
    && g.current.Some?
    && (match Lookup(g.nodes, g.current.value)
        case None => false
        case Some(n) =>
          && n.observation == o.hash && n.frame == o.frame
          && (receipts != [] ==> n.key == receipts[|receipts| - 1].postBelief))
  }

  method ValidateCrossFields(scope: Scope, o: Observation, g: Snapshot, receipts: seq<Receipt>, episodes: seq<Episode>)
    returns (ok: bool)
    ensures ok <==> CrossFieldsAccepted(scope, o, g, receipts, episodes)
  {
    hide HistoryAccepted, EndMatches, EffectSeen, EpisodeOf;
    if o.game != scope.game { return false; }
    ok := ValidateHistory(scope, o, g, receipts);
    if !ok { return; }
    ok := ValidateEnd(o, g, receipts);
    if !ok || |episodes| != |receipts| { return false; }
    for i := 0 to |receipts|
      invariant ok
      invariant forall j :: 0 <= j < i ==> episodes[j] == EpisodeOf(receipts[j], EffectSeen(g.nodes, receipts[j]))
    {
      ok := ValidateEpisode(g, receipts[i], episodes[i]);
      if !ok { return; }
    }
  }

  method ValidateEnd(o: Observation, g: Snapshot, receipts: seq<Receipt>) returns (ok: bool)
    ensures ok <==> EndMatches(o, g, receipts)
  {
    if receipts != [] {
      var last := receipts[|receipts| - 1];
      if o.hash != last.postObservation || o.state != last.stateAfter || o.levels != last.levelsAfter { return false; }
    }
    if g.current.None? { return false; }
    var found := Lookup(g.nodes, g.current.value);
    if found.None? || found.value.observation != o.hash || found.value.frame != o.frame { return false; }
    ok := receipts == [] || found.value.key == receipts[|receipts| - 1].postBelief;
  }

  /** An episode restates its receipt, with the effect classed again from the receipt and the node it left. */
  method ValidateEpisode(g: Snapshot, r: Receipt, e: Episode) returns (ok: bool)
    ensures ok <==> e == EpisodeOf(r, EffectSeen(g.nodes, r))
  {
    if e.sequence != r.sequence || e.receipt != r.hash || e.preBelief != r.preBelief || e.postBelief != r.postBelief
        || e.preObservation != r.preObservation || e.postObservation != r.postObservation || e.action != r.action
        || e.progress != r.levelsAfter - r.levelsBefore || e.noEffect != r.noEffect {
      return false;
    }
    var effect := NO_EFFECT;
    if r.stateAfter == WIN || r.stateAfter == GAME_OVER {
      effect := TERMINAL;
    } else if r.levelsAfter != r.levelsBefore {
      effect := PROGRESS;
    } else {
      var from := Lookup(g.nodes, r.preBelief);
      if from.Some? && r.frames != [] && from.value.frame != r.frames[|r.frames| - 1] { effect := GRID_CHANGE; }
    }
    ok := e.effect == effect;
  }

  /** The run's last observation is the checkpoint's, and the graph stands on the run's last node. */
  ghost predicate EndsAt(scope: Scope, o: Observation, g: Snapshot, obs: seq<Observation>, receipts: seq<Receipt>)
    requires |obs| == |receipts| + 1
  {
    o == obs[|receipts|] && g.current == Some(RunNode(scope, obs, receipts, |receipts|).key)
  }

  /** The run that left the checkpoint: its graph, its episodes, and where it stands. */
  ghost predicate EndedRun(scope: Scope, o: Observation, g: Snapshot, obs: seq<Observation>, receipts: seq<Receipt>,
      episodes: seq<Episode>) {
    && |obs| == |receipts| + 1
    && IsRun(scope, obs, receipts) && SameGraph(g, scope, obs, receipts) && EndsAt(scope, o, g, obs, receipts)
    && episodes == RunEpisodes(obs, receipts)
  }

  lemma CrossFieldsFix(scope: Scope, o: Observation, g: Snapshot, obs: seq<Observation>, receipts: seq<Receipt>)
    requires FromRun(scope, o, g, obs, receipts) && Exact(o)
    ensures EndMatches(o, g, receipts) <==> EndsAt(scope, o, g, obs, receipts)
  {
    var n := |receipts|;
    RunNodesAre(scope, obs, receipts, g);
    RunNodeFields(scope, obs, receipts, n);
    hide RunNode, RunNodes, RunEdges, Lookup, ValidActions, Alphabetical, Legal;
    assert Genuine(scope, obs[n]);
    assert n > 0 ==> Describes(scope, obs, receipts, n);
  }

  /** On the graph of a run the validator classes every transition as the controller did. */
  lemma EffectsAgree(scope: Scope, g: Snapshot, obs: seq<Observation>, receipts: seq<Receipt>, k: nat)
    requires |obs| == |receipts| + 1 && IsRun(scope, obs, receipts) && SameGraph(g, scope, obs, receipts)
    requires 1 <= k <= |receipts|
    ensures EffectSeen(g.nodes, receipts[k - 1]) == EffectClass(obs[k - 1], obs[k])
  {
    hide RunNode, RunNodes, RunEdges, Lookup, Genuine, Legal, SameGraph;
    RunNodesAre(scope, obs, receipts, g);
    RunNodeFields(scope, obs, receipts, k - 1);
    assert Describes(scope, obs, receipts, k);
  }

  lemma EpisodesFit(scope: Scope, g: Snapshot, obs: seq<Observation>, receipts: seq<Receipt>, episodes: seq<Episode>)
    requires |obs| == |receipts| + 1 && IsRun(scope, obs, receipts) && SameGraph(g, scope, obs, receipts)
    ensures EpisodesMatch(g.nodes, receipts, episodes) <==> episodes == RunEpisodes(obs, receipts)
  {
    hide IsRun, SameGraph, EffectSeen, EffectClass;
    forall i | 0 <= i < |receipts|
      ensures EffectSeen(g.nodes, receipts[i]) == EffectClass(obs[i], obs[i + 1])
    {
      EffectsAgree(scope, g, obs, receipts, i + 1);
    }
  }

  /**
   * With the cross-field checks the whole checkpoint is that of a run: its graph, its episodes, and the
   * observation it ended at.
   */
  lemma CheckpointIsExact(scope: Scope, o: Observation, g: Snapshot, receipts: seq<Receipt>, episodes: seq<Episode>)
    requires Contiguous(receipts) && Exact(o)
    ensures CrossFieldsAccepted(scope, o, g, receipts, episodes) && Honest(scope, g, receipts) <==>
            exists obs :: EndedRun(scope, o, g, obs, receipts, episodes)
  {
    hide HistoryAccepted, Honest, IsRun, SameGraph, EndsAt, FromRun, EndMatches, Exact, EpisodesMatch, RunEpisodes;
    HistoryIsExact(scope, o, g, receipts);
    if CrossFieldsAccepted(scope, o, g, receipts, episodes) && Honest(scope, g, receipts) {
      var obs :| FromRun(scope, o, g, obs, receipts);
      FromRunParts(scope, o, g, obs, receipts);
      CrossFieldsFix(scope, o, g, obs, receipts);
      EpisodesFit(scope, g, obs, receipts, episodes);
      assert EndedRun(scope, o, g, obs, receipts, episodes);
    }
    if obs :| EndedRun(scope, o, g, obs, receipts, episodes) {
      EndIsCurrent(scope, o, g, obs, receipts);
      CrossFieldsFix(scope, o, g, obs, receipts);
      EpisodesFit(scope, g, obs, receipts, episodes);
    }
  }

  lemma FromRunParts(scope: Scope, o: Observation, g: Snapshot, obs: seq<Observation>, receipts: seq<Receipt>)
    requires FromRun(scope, o, g, obs, receipts)
    ensures IsRun(scope, obs, receipts) && SameGraph(g, scope, obs, receipts) && |obs| == |receipts| + 1
  {
  }

  lemma EndIsCurrent(scope: Scope, o: Observation, g: Snapshot, obs: seq<Observation>, receipts: seq<Receipt>)
    requires IsRun(scope, obs, receipts) && SameGraph(g, scope, obs, receipts) && EndsAt(scope, o, g, obs, receipts)
    ensures FromRun(scope, o, g, obs, receipts) && o.game == scope.game
  {
    hide Describes, RunNode, RunEdges, RunNodes;
    var n := |receipts|;
    RunNodesAre(scope, obs, receipts, g);
    assert HasNode(g.nodes, RunNode(scope, obs, receipts, n).key);
    RunNodeFields(scope, obs, receipts, n);
    assert Genuine(scope, obs[n]);
  }

  // ---------------------------------------------------------------- what the validator lets through

  /** A graph with what one node shows beside its observation hash replaced. */
  function Forged(g: Snapshot, i: nat, frame: Hash, names: seq<ActionName>): Snapshot
    requires i < |g.nodes|
  {
    g.(nodes := g.nodes[i := g.nodes[i].(frame := frame, actions := names)])
  }

  /** Every look-up finds what it found before, but for the node that was changed. */
  lemma {:induction false} ForgedLookup(nodes: seq<Node>, i: nat, n: Node, key: BeliefKey)
    requires i < |nodes| && n.key == nodes[i].key
    requires forall j, k :: 0 <= j < k < |nodes| ==> nodes[j].key != nodes[k].key
    ensures Lookup(nodes[i := n], key) == if key == n.key then Some(n) else Lookup(nodes, key)
    ensures Lookup(nodes, n.key) == Some(nodes[i])
  {
    LookupUnique(nodes, nodes[i]);
    if i > 0 {
      assert forall j, k :: 0 <= j < k < |nodes[1..]| ==>
             nodes[1..][j].key == nodes[j + 1].key != nodes[k + 1].key == nodes[1..][k].key;
      ForgedLookup(nodes[1..], i - 1, n, key);
      assert nodes[i := n][1..] == nodes[1..][i - 1 := n];
    } else {
      assert nodes[i := n][1..] == nodes[1..];
    }
  }

  lemma DistinctKeys(nodes: seq<Node>, scope: Scope, m: int)
    requires NodesOk(nodes, scope, m)
    ensures forall j, k :: 0 <= j < k < |nodes| ==> nodes[j].key != nodes[k].key
  {
  }

  lemma ForgedNodesAreOk(nodes: seq<Node>, i: nat, frame: Hash, names: seq<ActionName>, scope: Scope, m: nat)
    requires NodesOk(nodes, scope, m) && i < |nodes|
    ensures var forged := nodes[i := nodes[i].(frame := frame, actions := names)];
            (NodesOk(forged, scope, m) <==> ValidActions(names)) && Covers(forged, nodes)
  {
    hide ValidActions;
    var forged := nodes[i := nodes[i].(frame := frame, actions := names)];
    forall k, o | HasNodeSeeing(nodes, k, o) ensures HasNodeSeeing(forged, k, o) {
      var j :| 0 <= j < |nodes| && nodes[j].key == k && nodes[j].observation == o;
      assert forged[j].key == k && forged[j].observation == o;
    }
    if NodesOk(forged, scope, m) {
      assert NodeOk(forged[i], scope, m);
    }
  }

  lemma ForgedStep(scope: Scope, g: Snapshot, r: Receipt, i: nat, frame: Hash, names: seq<ActionName>, m: int)
    requires StepAccepted(scope, g, r) && i < |g.nodes| && NodesOk(g.nodes, scope, m)
    ensures StepAccepted(scope, Forged(g, i, frame, names), r) <==>
            frame == g.nodes[i].frame || r.postBelief != g.nodes[i].key
  {
    DistinctKeys(g.nodes, scope, m);
    hide NodesOk, Lookup, LookupEdge, EdgeMatches;
    var n := g.nodes[i].(frame := frame, actions := names);
    ForgedLookup(g.nodes, i, n, r.preBelief);
    ForgedLookup(g.nodes, i, n, r.postBelief);
  }

  /** Which node of an accepted graph a node is: the genesis, or where some receipt arrived. */
  lemma ArrivedAt(scope: Scope, o: Observation, g: Snapshot, receipts: seq<Receipt>, i: nat)
    requires AllAccepted(scope, o, g, receipts) && i < |g.nodes|
    ensures g.nodes[i].latent.Genesis? <==> forall k :: 0 <= k < |receipts| ==> receipts[k].postBelief != g.nodes[i].key
    ensures g.nodes[i].latent.Genesis? ==> receipts[0].preBelief == g.nodes[i].key
  {
    AcceptedSteps(scope, o, g, receipts);
    DistinctKeys(g.nodes, scope, |receipts|);
    ChosenNodesAreAll(scope, g, receipts);
    GenesisIsFirst(scope, o, g, receipts);
    var ns, n := ChosenNodes(scope, g, receipts), g.nodes[i];
    hide StepsAccepted, AllAccepted, Chosen, GenesisAccepted, NodesOk, EdgesOk, CurrentOk;
    assert n in multiset(g.nodes) && n in multiset(ns);
    var k :| 0 <= k < |ns| && ns[k] == n;
    assert ns[k].key == KeyAt(receipts, k);
    forall j | 0 <= j < |receipts|
      ensures receipts[j].postBelief == n.key ==> n == Chosen(scope, g, receipts, j + 1) && n.latent.Step?
    {
      ChosenStep(scope, g, receipts, j + 1);
      SameKeySameNode(g.nodes, n, Chosen(scope, g, receipts, j + 1));
    }
    if k > 0 {
      ChosenStep(scope, g, receipts, k);
    }
  }

  lemma SameKeySameNode(nodes: seq<Node>, n: Node, m: Node)
    requires n in nodes && m in nodes && forall i, j :: 0 <= i < j < |nodes| ==> nodes[i].key != nodes[j].key
    ensures n.key == m.key ==> n == m
  {
  }

  /**
   * Nor does it look at the actions a node offers or at the frame of the genesis: once there are receipts, any
   * valid list of actions in any node passes, and any frame in the genesis, but no other frame elsewhere.
   */
  lemma ContentsAreNotChecked(scope: Scope, o: Observation, g: Snapshot, receipts: seq<Receipt>, i: nat, frame: Hash,
      names: seq<ActionName>)
    requires AllAccepted(scope, o, g, receipts) && i < |g.nodes|
    ensures HistoryAccepted(scope, o, Forged(g, i, frame, names), receipts) <==>
            ValidActions(names) && (frame == g.nodes[i].frame || g.nodes[i].latent.Genesis?)
  {
    hide *;
    AcceptedSteps(scope, o, g, receipts);
    AcceptedStep(scope, o, g, receipts);
    ArrivedAt(scope, o, g, receipts, i);
    var h := Forged(g, i, frame, names);
    ForgedGraph(scope, o, g, receipts, i, frame, names);
    HistoryParts(scope, o, h, receipts);
    forall k | 0 <= k < |receipts|
      ensures StepAccepted(scope, h, receipts[k]) <==>
              frame == g.nodes[i].frame || receipts[k].postBelief != g.nodes[i].key
    {
      ForgedStep(scope, g, receipts[k], i, frame, names, |receipts|);
    }
  }

  lemma AcceptedStep(scope: Scope, o: Observation, g: Snapshot, receipts: seq<Receipt>)
    requires AllAccepted(scope, o, g, receipts)
    ensures receipts != [] && forall k :: 0 <= k < |receipts| ==> StepAccepted(scope, g, receipts[k])
  {
  }

  lemma HistoryParts(scope: Scope, o: Observation, g: Snapshot, receipts: seq<Receipt>)
    requires |g.nodes| == |receipts| + 1 && |g.edges| == |receipts| && GenesisAccepted(scope, o, g, receipts)
    requires EdgesOk(g.edges, g.nodes, |receipts|) && CurrentOk(g.current, g.nodes)
    ensures HistoryAccepted(scope, o, g, receipts) <==>
            NodesOk(g.nodes, scope, |receipts|) && forall k :: 0 <= k < |receipts| ==>
                StepAccepted(scope, g, receipts[k])
  {
    hide NodesOk, EdgesOk, StepAccepted, CurrentOk, GenesisAccepted;
  }

  lemma ForgedGraph(scope: Scope, o: Observation, g: Snapshot, receipts: seq<Receipt>, i: nat, frame: Hash,
      names: seq<ActionName>)
    requires receipts != [] && i < |g.nodes| && NodesOk(g.nodes, scope, |receipts|)
    requires EdgesOk(g.edges, g.nodes, |receipts|) && CurrentOk(g.current, g.nodes)
    requires GenesisAccepted(scope, o, g, receipts)
    ensures var h := Forged(g, i, frame, names);
            && |h.nodes| == |g.nodes| && h.edges == g.edges
            && (NodesOk(h.nodes, scope, |receipts|) <==> ValidActions(names))
            && EdgesOk(h.edges, h.nodes, |receipts|) && CurrentOk(h.current, h.nodes)
                && GenesisAccepted(scope, o, h, receipts)
  {
    var h := Forged(g, i, frame, names);
    DistinctKeys(g.nodes, scope, |receipts|);
    ForgedNodesAreOk(g.nodes, i, frame, names, scope, |receipts|);
    ForgedLookup(g.nodes, i, h.nodes[i], GenesisKey(scope, receipts[0].preObservation));
    hide NodesOk, EdgesOk, Lookup, ValidActions, HasNode, Covers;
    EdgesStayOk(g.edges, g.nodes, h.nodes, |receipts|, |receipts|);
    if g.current.Some? {
      CoversNode(h.nodes, g.nodes, g.current.value);
    }
  }

  /** Whether the first transition is classed alike with either frame before it. */
  predicate ClassStays(r: Receipt, frame: Hash, other: Hash)
    requires r.frames != []
  {
    || r.stateAfter == WIN || r.stateAfter == GAME_OVER
    || r.levelsAfter != r.levelsBefore
    || (frame == r.frames[|r.frames| - 1] <==> other == r.frames[|r.frames| - 1])
  }

  /** What the checkpoint does not notice: other actions, and another first frame that leaves the first class alone. */
  ghost predicate Unnoticed(g: Snapshot, receipts: seq<Receipt>, i: nat, frame: Hash, names: seq<ActionName>)
    requires i < |g.nodes| && receipts != [] && receipts[0].frames != []
  {
    && ValidActions(names)
    && (frame == g.nodes[i].frame || (g.nodes[i].latent.Genesis? && ClassStays(receipts[0], g.nodes[i].frame, frame)))
  }

  lemma ReturnedFrame(scope: Scope, g: Snapshot, r: Receipt)
    requires StepAccepted(scope, g, r)
    ensures r.frames != []
  {
  }

  /** The first receipt alone leaves the genesis. */
  lemma LeftOnce(scope: Scope, o: Observation, g: Snapshot, receipts: seq<Receipt>, i: nat, k: nat)
    requires AllAccepted(scope, o, g, receipts) && i < |g.nodes| && g.nodes[i].latent.Genesis? && k < |receipts|
    ensures receipts[k].preBelief == g.nodes[i].key <==> k == 0
  {
    ArrivedAt(scope, o, g, receipts, i);
    hide HistoryAccepted;
    assert k > 0 ==> receipts[k - 1 + 1].preBelief == receipts[k - 1].postBelief;
  }

  lemma ForgedEffect(scope: Scope, o: Observation, g: Snapshot, receipts: seq<Receipt>, i: nat, frame: Hash,
      names: seq<ActionName>, k: nat)
    requires AllAccepted(scope, o, g, receipts) && i < |g.nodes| && k < |receipts| && receipts[0].frames != []
    requires frame == g.nodes[i].frame || g.nodes[i].latent.Genesis?
    ensures EffectSeen(Forged(g, i, frame, names).nodes, receipts[k]) == EffectSeen(g.nodes, receipts[k]) <==>
            frame == g.nodes[i].frame || k > 0 || ClassStays(receipts[0], g.nodes[i].frame, frame)
  {
    hide *;
    AcceptedSteps(scope, o, g, receipts);
    DistinctKeys(g.nodes, scope, |receipts|);
    if g.nodes[i].latent.Genesis? {
      LeftOnce(scope, o, g, receipts, i, k);
    }
    EffectOfForgery(g, receipts[k], i, frame, names);
    ClassStaysAlike(receipts[0], frame);
  }

  lemma ClassStaysAlike(r: Receipt, frame: Hash)
    requires r.frames != []
    ensures ClassStays(r, frame, frame)
  {
  }

  /** Only a receipt that leaves the changed node may be classed differently. */
  lemma EffectOfForgery(g: Snapshot, r: Receipt, i: nat, frame: Hash, names: seq<ActionName>)
    requires i < |g.nodes| && forall j, k :: 0 <= j < k < |g.nodes| ==> g.nodes[j].key != g.nodes[k].key
    ensures r.preBelief != g.nodes[i].key || frame == g.nodes[i].frame ==>
              EffectSeen(Forged(g, i, frame, names).nodes, r) == EffectSeen(g.nodes, r)
    ensures r.preBelief == g.nodes[i].key && r.frames != [] ==>
              (EffectSeen(Forged(g, i, frame, names).nodes, r) == EffectSeen(g.nodes, r) <==>
                    ClassStays(r, g.nodes[i].frame, frame))
  {
    hide Lookup;
    ForgedLookup(g.nodes, i, g.nodes[i].(frame := frame, actions := names), r.preBelief);
  }

  lemma ForgedEpisodes(scope: Scope, o: Observation, g: Snapshot, receipts: seq<Receipt>, i: nat, frame: Hash,
      names: seq<ActionName>, episodes: seq<Episode>)
    requires AllAccepted(scope, o, g, receipts) && i < |g.nodes| && receipts[0].frames != []
    requires frame == g.nodes[i].frame || g.nodes[i].latent.Genesis?
    requires EpisodesMatch(g.nodes, receipts, episodes)
    ensures EpisodesMatch(Forged(g, i, frame, names).nodes, receipts, episodes) <==>
            frame == g.nodes[i].frame || ClassStays(receipts[0], g.nodes[i].frame, frame)
  {
    hide HistoryAccepted, EffectSeen, ClassStays;
    var h := Forged(g, i, frame, names);
    forall k | 0 <= k < |receipts|
      ensures EffectSeen(h.nodes, receipts[k]) == EffectSeen(g.nodes, receipts[k]) <==>
              frame == g.nodes[i].frame || k > 0 || ClassStays(receipts[0], g.nodes[i].frame, frame)
    {
      ForgedEffect(scope, o, g, receipts, i, frame, names, k);
    }
    assert EpisodesMatch(h.nodes, receipts, episodes) ==>
           episodes[0] == EpisodeOf(receipts[0], EffectSeen(h.nodes, receipts[0]));
  }

  lemma ForgedEnd(scope: Scope, o: Observation, g: Snapshot, receipts: seq<Receipt>, i: nat, frame: Hash,
      names: seq<ActionName>)
    requires AllAccepted(scope, o, g, receipts) && EndMatches(o, g, receipts) && i < |g.nodes|
    requires frame == g.nodes[i].frame || g.nodes[i].latent.Genesis?
    ensures EndMatches(o, Forged(g, i, frame, names), receipts)
  {
    AcceptedSteps(scope, o, g, receipts);
    ArrivedAt(scope, o, g, receipts, i);
    DistinctKeys(g.nodes, scope, |receipts|);
    hide AllAccepted, Lookup, StepsAccepted, NodesOk, EdgesOk, GenesisAccepted, CurrentOk;
    ForgedLookup(g.nodes, i, g.nodes[i].(frame := frame, actions := names), g.current.value);
  }

  /**
   * The later checks compare the first frame, but only through the effect class of the first transition: an
   * accepted checkpoint stays accepted exactly when the change is not noticed.
   */
  lemma ForgeryIsAccepted(scope: Scope, o: Observation, g: Snapshot, receipts: seq<Receipt>, episodes: seq<Episode>,
      i: nat, frame: Hash, names: seq<ActionName>)
    requires CrossFieldsAccepted(scope, o, g, receipts, episodes) && Contiguous(receipts) && receipts != []
    requires i < |g.nodes|
    ensures receipts[0].frames != []
    ensures CrossFieldsAccepted(scope, o, Forged(g, i, frame, names), receipts, episodes) <==>
            Unnoticed(g, receipts, i, frame, names)
  {
    ReturnedFrame(scope, g, receipts[0]);
    ContentsAreNotChecked(scope, o, g, receipts, i, frame, names);
    hide HistoryAccepted, ValidActions, EpisodesMatch, EndMatches, ClassStays, Forged;
    if frame == g.nodes[i].frame || g.nodes[i].latent.Genesis? {
      ForgedEnd(scope, o, g, receipts, i, frame, names);
      ForgedEpisodes(scope, o, g, receipts, i, frame, names, episodes);
    }
  }

  /**
   * So in the checkpoint of any run that acted, any node can be given actions it never offered, and the genesis any
   * frame that leaves the class of the first transition alone: such a checkpoint still passes, every other one
   * does not, and no run has left either.
   */
  lemma ForgeriesPass(scope: Scope, o: Observation, g: Snapshot, obs: seq<Observation>, receipts: seq<Receipt>,
      episodes: seq<Episode>, i: nat, frame: Hash, names: seq<ActionName>)
    requires EndedRun(scope, o, g, obs, receipts, episodes) && Contiguous(receipts) && receipts != []
    requires i < |g.nodes| && (names != g.nodes[i].actions || frame != g.nodes[i].frame)
    ensures receipts[0].frames != []
    ensures CrossFieldsAccepted(scope, o, Forged(g, i, frame, names), receipts, episodes) <==>
            Unnoticed(g, receipts, i, frame, names)
    ensures !exists other :: FromRun(scope, o, Forged(g, i, frame, names), other, receipts)
  {
    hide HistoryAccepted, IsRun, SameGraph, FromRun, ValidActions, Offered, Alphabetical, EndMatches, EpisodesMatch,
      RunEpisodes, Unnoticed;
    LastIsExact(scope, o, g, obs, receipts, episodes);
    CheckpointIsExact(scope, o, g, receipts, episodes);
    ForgeryIsAccepted(scope, o, g, receipts, episodes, i, frame, names);
    HistoryIsExact(scope, o, Forged(g, i, frame, names), receipts);
    var n := Forged(g, i, frame, names).nodes[i];
    assert Sincere(scope, g.nodes[i]) && !Sincere(scope, n);
  }

  lemma LastIsExact(scope: Scope, o: Observation, g: Snapshot, obs: seq<Observation>, receipts: seq<Receipt>,
      episodes: seq<Episode>)
    requires EndedRun(scope, o, g, obs, receipts, episodes)
    ensures Exact(o)
  {
    hide Describes, SameGraph, RunNode, Exact;
    assert Genuine(scope, obs[|receipts|]);
  }

  // ---------------------------------------------------------------- a smallest run

  function Seen(scope: Scope, state: State, names: seq<ActionName>, frame: Hash): Observation {
    Observation(scope.game, HashOf(scope.game, state, 0, 1, names, frame), frame, state, 0, 1, names)
  }

  /** Before and after the opening RESET of a game. */
  function OpeningObservations(scope: Scope): seq<Observation> {
    [Seen(scope, NOT_PLAYED, [], "blank"), Seen(scope, NOT_FINISHED, [ACTION1], "board")]
  }

  ghost function OpeningReceipt(scope: Scope): Receipt {
    var before, after := OpeningObservations(scope)[0], OpeningObservations(scope)[1];
    var from := MakeNode(scope, GenesisOf(scope, before), before, 1);
    var reset := Action(RESET, None);
    Receipt(1, reset, before.hash, after.hash, from.key, NextOf(scope, from, reset, after, 1).key,
            before.state, after.state, 0, 0, ["board"], false, "receipt")
  }

  /** The opening RESET is a run, so the forgeries above exist. */
  lemma OpeningIsRun(scope: Scope)
    ensures var obs, receipts := OpeningObservations(scope), [OpeningReceipt(scope)];
            Contiguous(receipts) && EndedRun(scope, obs[1], OpeningGraph(scope), obs, receipts,
                  RunEpisodes(obs, receipts))
  {
    var obs, receipts := OpeningObservations(scope), [OpeningReceipt(scope)];
    assert RunNode(scope, obs, receipts, 1)
           == MakeNode(scope, NextOf(scope, RunNode(scope, obs, receipts, 0), Action(RESET, None), obs[1], 1), obs[1],
                 1);
    assert Describes(scope, obs, receipts, 1);
    assert Genuine(scope, obs[0]) && Genuine(scope, obs[1]);
  }

  ghost function OpeningGraph(scope: Scope): Snapshot {
    var obs, receipts := OpeningObservations(scope), [OpeningReceipt(scope)];
    Snapshot(RunNodes(scope, obs, receipts, 1), RunEdges(scope, obs, receipts, 1),
          Some(RunNode(scope, obs, receipts, 1).key))
  }

  /** Its first frame, "blank", may be any but that of the board: the opening RESET would then have had no effect. */
  lemma OpeningForgeries(scope: Scope, frame: Hash)
    ensures var obs, receipts, g := OpeningObservations(scope), [OpeningReceipt(scope)], OpeningGraph(scope);
            && |g.nodes| > 0
            && (CrossFieldsAccepted(scope, obs[1], Forged(g, 0, frame, []), receipts, RunEpisodes(obs, receipts)) <==>
                  frame != "board")
  {
    var obs, receipts, g := OpeningObservations(scope), [OpeningReceipt(scope)], OpeningGraph(scope);
    var episodes := RunEpisodes(obs, receipts);
    OpeningIsRun(scope);
    OpeningGenesis(scope);
    OpeningClass(scope, frame);
    hide *;
    LastIsExact(scope, obs[1], g, obs, receipts, episodes);
    CheckpointIsExact(scope, obs[1], g, receipts, episodes);
    ForgeryIsAccepted(scope, obs[1], g, receipts, episodes, 0, frame, []);
  }

  lemma OpeningGenesis(scope: Scope)
    ensures var g := OpeningGraph(scope); |g.nodes| > 0 && g.nodes[0].latent.Genesis? && g.nodes[0].frame == "blank"
  {
  }

  lemma OpeningClass(scope: Scope, frame: Hash)
    ensures var g, receipts := OpeningGraph(scope), [OpeningReceipt(scope)];
            && |g.nodes| > 0 && receipts[0].frames != []
            && (Unnoticed(g, receipts, 0, frame, []) <==> frame != "board")
  {
    OpeningGenesis(scope);
    hide OpeningGraph;
    assert "blank"[1] != "board"[1];
    assert ValidActions([]);
  }
}
