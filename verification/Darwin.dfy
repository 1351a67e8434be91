// The evolutionary search over solver genomes (crates/poker-darwin/src/darwin.rs): `score`,
// `evolve` and `trace_ancestry`. Training, mutation and the random stream are parameters.
module Darwin {
  import opened Collections
  import opened Wrappers

  const KINDS := 6

  datatype Genome = Genome(kind: nat, genes: seq<real>)

  predicate IsDynamic(g: Genome) {
    g.kind % KINDS == 4 || g.kind % KINDS == 5
  }

  datatype Indiv = Indiv(genome: Genome, id: nat, parent: Option<nat>)

  datatype LineageNode = LineageNode(id: nat, parent: Option<nat>, generation: nat, genome: Genome,
        exploitability: real)

  datatype Scored = Scored(indiv: Indiv, e: real)

  datatype Config = Config(population: nat, generations: nat, elite: nat)

  /** Everything the search does not control: the exact evaluation and the random stream. */
  datatype World = World(
    key: Genome -> string,
    evaluate: Genome -> real,
    seeds: seq<Genome>,
    random: nat -> Genome,
    mutate: (Genome, nat) -> Genome,
    below: (nat, nat) -> nat)

  ghost predicate Lawful(w: World) {
    forall draw, n :: n > 0 ==> w.below(draw, n) < n
  }

  // ---------------------------------------------------------------- ranking

  predicate RanksBefore(w: World, a: Scored, b: Scored) {
    a.e < b.e || (a.e == b.e && TextAtMost(w.key(a.indiv.genome), w.key(b.indiv.genome)))
  }

  function Rank(w: World, xs: seq<Scored>): seq<Scored> {
    Sort((a: Scored, b: Scored) => RanksBefore(w, a, b), xs)
  }

  ghost predicate Ranked(w: World, xs: seq<Scored>) {
    Sorted((a: Scored, b: Scored) => RanksBefore(w, a, b), xs)
  }

  /** Ranking permutes the population and puts it in order of exploitability, then of key. */
  lemma RankIsSorted(w: World, xs: seq<Scored>)
    ensures Ranked(w, Rank(w, xs)) && multiset(Rank(w, xs)) == multiset(xs) && |Rank(w, xs)| == |xs|
  {
    hide TextAtMost, Sorted, Sort;
    var before := (a: Scored, b: Scored) => RanksBefore(w, a, b);
    forall a: Scored, b: Scored ensures before(a, b) || before(b, a) {
      TextsAreOrdered(w.key(a.indiv.genome), w.key(b.indiv.genome), "");
    }
    forall a: Scored, b: Scored, c: Scored | before(a, b) && before(b, c) ensures before(a, c) {
      TextsAreOrdered(w.key(a.indiv.genome), w.key(b.indiv.genome), w.key(c.indiv.genome));
    }
    SortSorts(before, xs);
  }

  lemma HeadRanksFirst(w: World, xs: seq<Scored>, i: nat)
    requires Ranked(w, xs) && i < |xs|
    ensures xs[0].e <= xs[i].e
  {
    if i > 0 {
      assert RanksBefore(w, xs[0], xs[i]);
    }
  }

  // ---------------------------------------------------------------- the family tree

  /** The earliest record of an individual. */
  ghost predicate IsBirth(lineage: seq<LineageNode>, i: int) {
    0 <= i < |lineage| && forall j :: 0 <= j < i ==> lineage[j].id != lineage[i].id
  }

  /** A generation-0 seed, or the child of an individual born in an earlier generation. */
  ghost predicate HasParent(lineage: seq<LineageNode>, node: LineageNode) {
    match node.parent
    case None => node.generation == 0
    case Some(q) => exists j :: IsBirth(lineage, j) && lineage[j].id == q && lineage[j].generation < node.generation
  }

  ghost predicate WellBred(lineage: seq<LineageNode>) {
    forall i :: IsBirth(lineage, i) ==> HasParent(lineage, lineage[i])
  }

  ghost predicate Recorded(lineage: seq<LineageNode>, id: nat) {
    exists i :: IsBirth(lineage, i) && lineage[i].id == id
  }

  /** A chain of births from a generation-0 seed down to `id`. */
  ghost predicate Ancestry(lineage: seq<LineageNode>, chain: seq<LineageNode>, id: nat) {
    && chain != []
    && chain[0].parent.None? && chain[0].generation == 0
    && chain[|chain| - 1].id == id
    && (forall k :: 0 <= k < |chain| ==> BornAs(lineage, chain[k]))
    && (forall k :: 0 <= k < |chain| - 1 ==>
          chain[k + 1].parent == Some(chain[k].id) && chain[k].generation < chain[k + 1].generation)
  }

  ghost predicate BornAs(lineage: seq<LineageNode>, node: LineageNode) {
    exists i :: IsBirth(lineage, i) && lineage[i] == node
  }

  lemma BirthIsUnique(lineage: seq<LineageNode>, a: LineageNode, b: LineageNode)
    requires BornAs(lineage, a) && BornAs(lineage, b) && a.id == b.id
    ensures a == b
  {
    var i :| IsBirth(lineage, i) && lineage[i] == a;
    var j :| IsBirth(lineage, j) && lineage[j] == b;
  }

  lemma ParentIsBorn(lineage: seq<LineageNode>, node: LineageNode) returns (parent: LineageNode)
    requires WellBred(lineage) && BornAs(lineage, node) && node.parent.Some?
    ensures BornAs(lineage, parent) && parent.id == node.parent.value && parent.generation < node.generation
  {
    var i :| IsBirth(lineage, i) && lineage[i] == node;
    var j :| IsBirth(lineage, j) && lineage[j].id == node.parent.value && lineage[j].generation < node.generation;
    parent := lineage[j];
  }

  lemma SeedIsFirstGeneration(lineage: seq<LineageNode>, node: LineageNode)
    requires WellBred(lineage) && BornAs(lineage, node) && node.parent.None?
    ensures node.generation == 0
  {
    var i :| IsBirth(lineage, i) && lineage[i] == node;
  }

  /** The earliest record of every id. */
  ghost predicate Indexes(byId: map<nat, LineageNode>, lineage: seq<LineageNode>) {
    && (forall q :: q in byId ==> byId[q].id == q && BornAs(lineage, byId[q]))
    && (forall node :: BornAs(lineage, node) ==> node.id in byId)
  }

  method IndexById(lineage: seq<LineageNode>) returns (byId: map<nat, LineageNode>)
    ensures Indexes(byId, lineage)
  {
    byId := map[];
    for i := 0 to |lineage|
      invariant forall j :: 0 <= j < i ==> lineage[j].id in byId
      invariant forall q :: q in byId ==> byId[q].id == q && BornAs(lineage, byId[q])
      invariant forall q :: q in byId ==> exists j :: 0 <= j < i && lineage[j].id == q
    {
      if lineage[i].id !in byId {
        assert IsBirth(lineage, i) && BornAs(lineage, lineage[i]);
        byId := byId[lineage[i].id := lineage[i]];
      }
    }
  }

  method TraceAncestry(lineage: seq<LineageNode>, id: nat) returns (chain: seq<LineageNode>)
    requires WellBred(lineage) && Recorded(lineage, id)
    ensures Ancestry(lineage, chain, id)
  {
    hide WellBred, IsBirth, BornAs;
    var byId := IndexById(lineage);
    FindBirth(lineage, id);
    var node := byId[id];
    // Collected from the champion upwards; the source reverses the chain at the end.
    chain := [node];
    while node.parent.Some?
      invariant BornAs(lineage, node) && chain != [] && chain[0] == node
      invariant chain[|chain| - 1].id == id
      invariant forall k :: 0 <= k < |chain| ==> BornAs(lineage, chain[k])
      invariant forall k :: 0 <= k < |chain| - 1 ==>
                chain[k + 1].parent == Some(chain[k].id) && chain[k].generation < chain[k + 1].generation
      decreases node.generation
    {
      ghost var born := ParentIsBorn(lineage, node);
      var parent := byId[node.parent.value];
      BirthIsUnique(lineage, born, parent);
      node, chain := parent, [parent] + chain;
    }
    SeedIsFirstGeneration(lineage, node);
  }

  lemma FindBirth(lineage: seq<LineageNode>, id: nat)
    requires Recorded(lineage, id)
    ensures exists node :: BornAs(lineage, node) && node.id == id
  {
    var i :| IsBirth(lineage, i) && lineage[i].id == id;
    assert BornAs(lineage, lineage[i]);
  }

  // ---------------------------------------------------------------- one generation

  /** A population ready for generation `gen`: each member already recorded, a seed, or a child of a record. */
  ghost predicate PopFits(pop: seq<Indiv>, lineage: seq<LineageNode>, gen: nat) {
    && (forall i :: 0 <= i < |pop| ==> Lineal(pop[i], lineage, gen))
    && (forall i :: 0 <= i < |lineage| ==> lineage[i].generation < gen)
  }

  ghost predicate Lineal(ind: Indiv, lineage: seq<LineageNode>, gen: nat) {
    || Recorded(lineage, ind.id)
    || (match ind.parent case None => gen == 0 case Some(q) => Recorded(lineage, q))
  }

  function NodeOf(s: Scored, gen: nat): LineageNode {
    LineageNode(s.indiv.id, s.indiv.parent, gen, s.indiv.genome, s.e)
  }

  function NodesOf(scored: seq<Scored>, gen: nat): (nodes: seq<LineageNode>)
    ensures |nodes| == |scored|
  {
    seq(|scored|, i requires 0 <= i < |scored| => NodeOf(scored[i], gen))
  }

  lemma {:induction false} EarliestExists(lineage: seq<LineageNode>, k: nat)
    requires k < |lineage|
    ensures exists i :: IsBirth(lineage, i) && lineage[i].id == lineage[k].id && i <= k
    decreases k
  {
    if j :| 0 <= j < k && lineage[j].id == lineage[k].id {
      EarliestExists(lineage, j);
    } else {
      assert IsBirth(lineage, k);
    }
  }

  lemma ParentStays(lineage: seq<LineageNode>, more: seq<LineageNode>, node: LineageNode)
    requires HasParent(lineage, node)
    ensures HasParent(lineage + more, node)
  {
    if node.parent.Some? {
      var j :| IsBirth(lineage, j) && lineage[j].id == node.parent.value && lineage[j].generation < node.generation;
      assert IsBirth(lineage + more, j);
    }
  }

  lemma RecordedHasIndex(lineage: seq<LineageNode>, id: nat) returns (i: int)
    requires Recorded(lineage, id)
    ensures IsBirth(lineage, i) && lineage[i].id == id
  {
    i :| IsBirth(lineage, i) && lineage[i].id == id;
  }

  lemma LateBirthIsNew(lineage: seq<LineageNode>, more: seq<LineageNode>, i: int)
    requires IsBirth(lineage + more, i) && i >= |lineage|
    ensures !Recorded(lineage, (lineage + more)[i].id)
  {
    forall j | 0 <= j < |lineage| ensures lineage[j].id != (lineage + more)[i].id {
      assert lineage[j] == (lineage + more)[j];
    }
  }

  lemma EarlyBirth(lineage: seq<LineageNode>, more: seq<LineageNode>, i: int)
    requires IsBirth(lineage + more, i) && i < |lineage|
    ensures IsBirth(lineage, i)
  {
    forall j | 0 <= j < i ensures lineage[j].id != lineage[i].id {
      assert lineage[j] == (lineage + more)[j];
    }
  }

  lemma NewbornHasParent(lineage: seq<LineageNode>, more: seq<LineageNode>, i: int, ind: Indiv, gen: nat)
    requires forall k :: 0 <= k < |lineage| ==> lineage[k].generation < gen
    requires IsBirth(lineage + more, i) && i >= |lineage|
    requires (lineage + more)[i].id == ind.id && (lineage + more)[i].parent == ind.parent
    requires (lineage + more)[i].generation == gen
    requires Lineal(ind, lineage, gen)
    ensures HasParent(lineage + more, (lineage + more)[i])
  {
    hide Recorded;
    var all := lineage + more;
    if ind.parent.Some? && Recorded(lineage, ind.parent.value) {
      var j := RecordedHasIndex(lineage, ind.parent.value);
      assert IsBirth(all, j);
    } else {
      LateBirthIsNew(lineage, more, i);
    }
  }

  /** Writing a generation down keeps the tree well bred. */
  lemma RecordingKeepsTree(lineage: seq<LineageNode>, scored: seq<Scored>, gen: nat)
    requires WellBred(lineage) && forall i :: 0 <= i < |lineage| ==> lineage[i].generation < gen
    requires forall i :: 0 <= i < |scored| ==> Lineal(scored[i].indiv, lineage, gen)
    ensures WellBred(lineage + NodesOf(scored, gen))
  {
    hide HasParent, Lineal, Recorded;
    var more := NodesOf(scored, gen);
    var all := lineage + more;
    forall i | IsBirth(all, i) ensures HasParent(all, all[i]) {
      if i < |lineage| {
        EarlyBirth(lineage, more, i);
        ParentStays(lineage, more, lineage[i]);
      } else {
        NewbornHasParent(lineage, more, i, scored[i - |lineage|].indiv, gen);
      }
    }
  }

  /** ... and records every individual of it. */
  lemma RecordingRecords(lineage: seq<LineageNode>, scored: seq<Scored>, gen: nat, i: nat)
    requires i < |scored|
    ensures Recorded(lineage + NodesOf(scored, gen), scored[i].indiv.id)
  {
    var all := lineage + NodesOf(scored, gen);
    EarliestExists(all, |lineage| + i);
    assert all[|lineage| + i].id == scored[i].indiv.id;
  }

  // ---------------------------------------------------------------- what the report promises

  /** `best` is a recorded individual, no record is better, and none before it is as good. */
  ghost predicate BestOf(best: Scored, lineage: seq<LineageNode>) {
    && (forall i :: 0 <= i < |lineage| ==> best.e <= lineage[i].exploitability)
    && (exists i :: 0 <= i < |lineage| && lineage[i].exploitability == best.e && lineage[i].id == best.indiv.id
          && lineage[i].genome == best.indiv.genome && lineage[i].parent == best.indiv.parent
          && forall j :: 0 <= j < i ==> best.e < lineage[j].exploitability)
  }

  /** `fitness` is the negated minimum over the records of generations 0..k. */
  ghost predicate IsFitness(fitness: real, lineage: seq<LineageNode>, k: int) {
    && (forall i :: 0 <= i < |lineage| && lineage[i].generation <= k ==> -fitness <= lineage[i].exploitability)
    && (exists i :: 0 <= i < |lineage| && lineage[i].generation <= k && -fitness == lineage[i].exploitability)
  }

  ghost predicate IsHistory(history: seq<real>, lineage: seq<LineageNode>) {
    forall k :: 0 <= k < |history| ==> IsFitness(history[k], lineage, k)
  }

  /** The best fitness so far never drops from one generation to a later one. */
  lemma HistoryIsMonotone(history: seq<real>, lineage: seq<LineageNode>, j: nat, k: nat)
    requires IsHistory(history, lineage) && j <= k < |history|
    ensures history[j] <= history[k]
  {
    assert IsFitness(history[j], lineage, j) && IsFitness(history[k], lineage, k);
    var i :| 0 <= i < |lineage| && lineage[i].generation <= j && -history[j] == lineage[i].exploitability;
  }

  lemma FitnessStays(fitness: real, lineage: seq<LineageNode>, more: seq<LineageNode>, k: int)
    requires IsFitness(fitness, lineage, k) && forall i :: 0 <= i < |more| ==> more[i].generation > k
    ensures IsFitness(fitness, lineage + more, k)
  {
    var i :| 0 <= i < |lineage| && lineage[i].generation <= k && -fitness == lineage[i].exploitability;
    assert (lineage + more)[i] == lineage[i];
  }

  lemma HistoryStep(pop: seq<Indiv>, history: seq<real>, lineage: seq<LineageNode>, scored: seq<Scored>, gen: nat,
      best: Scored)
    requires IsHistory(history, lineage) && |history| == gen
    requires PopFits(pop, lineage, gen)
    requires BestOf(best, lineage + NodesOf(scored, gen))
    ensures IsHistory(history + [-best.e], lineage + NodesOf(scored, gen))
  {
    hide IsFitness;
    var more := NodesOf(scored, gen);
    forall k | 0 <= k < |history| ensures IsFitness(history[k], lineage + more, k) {
      FitnessStays(history[k], lineage, more, k);
    }
    BestIsFitness(best, lineage + more, gen);
  }

  lemma BestIsFitness(best: Scored, all: seq<LineageNode>, gen: nat)
    requires BestOf(best, all) && forall i :: 0 <= i < |all| ==> all[i].generation <= gen
    ensures IsFitness(-best.e, all, gen)
  {
    var i :| 0 <= i < |all| && all[i].exploitability == best.e && all[i].id == best.indiv.id;
  }

  /** The least exploitability recorded for one class of genomes, None while the class is empty. */
  ghost predicate IsClassBest(least: Option<real>, dyn: bool, lineage: seq<LineageNode>) {
    match least
    case None => forall i :: 0 <= i < |lineage| ==> (lineage[i].genome.kind % 6 in {4, 5}) != dyn
    case Some(e) =>
      && (forall i :: 0 <= i < |lineage| && (lineage[i].genome.kind % 6 in {4, 5}) == dyn ==>
            e <= lineage[i].exploitability)
      && (exists i :: 0 <= i < |lineage| && (lineage[i].genome.kind % 6 in {4, 5}) == dyn
            && e == lineage[i].exploitability)
  }

  function Lower(least: Option<real>, e: real): Option<real> {
    match least case None => Some(e) case Some(x) => Some(if e < x then e else x)
  }

  lemma ClassBestStep(least: Option<real>, dyn: bool, lineage: seq<LineageNode>, node: LineageNode)
    requires IsClassBest(least, dyn, lineage)
    ensures IsClassBest(if IsDynamic(node.genome) == dyn then Lower(least, node.exploitability)
              else least, dyn, lineage + [node])
  {
    var all := lineage + [node];
    assert all[|lineage|] == node;
    if least.Some? {
      var i :| 0 <= i < |lineage| && (lineage[i].genome.kind % 6 in {4, 5}) == dyn
          && least.value == lineage[i].exploitability;
      assert all[i] == lineage[i];
    }
  }

  /** The new champion: the old one unless the head of the ranking beats it. */
  function Champion(best: Option<Scored>, head: Scored): Scored {
    match best case None => head case Some(b) => if head.e < b.e then head else b
  }

  lemma ChampionIsBest(w: World, best: Option<Scored>, scored: seq<Scored>, lineage: seq<LineageNode>, gen: nat)
    requires Ranked(w, scored) && scored != []
    requires match best case None => lineage == [] case Some(b) => BestOf(b, lineage)
    ensures BestOf(Champion(best, scored[0]), lineage + NodesOf(scored, gen))
    ensures Champion(best, scored[0]).e <= scored[0].e && (best.Some? ==> Champion(best, scored[0]).e <= best.value.e)
  {
    var all := lineage + NodesOf(scored, gen);
    assert all[|lineage|] == NodeOf(scored[0], gen);
    forall i | 0 <= i < |scored| ensures scored[0].e <= scored[i].e {
      HeadRanksFirst(w, scored, i);
    }
    if best.Some? {
      var i :| 0 <= i < |lineage| && lineage[i].exploitability == best.value.e && lineage[i].id == best.value.indiv.id
          && lineage[i].genome == best.value.indiv.genome && lineage[i].parent == best.value.indiv.parent
          && forall j :: 0 <= j < i ==> best.value.e < lineage[j].exploitability;
      assert all[i] == lineage[i] && forall j :: 0 <= j < |lineage| ==> all[j] == lineage[j];
    }
  }

  /** One genome and one parent behind every id handed out so far. */
  ghost predicate Known(who: seq<Indiv>, pop: seq<Indiv>, lineage: seq<LineageNode>, nextId: nat) {
    && |who| == nextId
    && (forall i :: 0 <= i < |pop| ==> pop[i].id < nextId && who[pop[i].id] == pop[i])
    && (forall i :: 0 <= i < |lineage| ==>
          lineage[i].id < nextId && who[lineage[i].id] == Indiv(lineage[i].genome, lineage[i].id, lineage[i].parent))
  }

  ghost predicate Identified(lineage: seq<LineageNode>) {
    forall i, j :: 0 <= i < |lineage| && 0 <= j < |lineage| && lineage[i].id == lineage[j].id ==>
      lineage[i].genome == lineage[j].genome && lineage[i].parent == lineage[j].parent
  }

  function Individuals(scored: seq<Scored>): (inds: seq<Indiv>)
    ensures |inds| == |scored|
  {
    seq(|scored|, i requires 0 <= i < |scored| => scored[i].indiv)
  }

  lemma FirstPopulation(pop: seq<Indiv>) returns (who: seq<Indiv>)
    requires forall i :: 0 <= i < |pop| ==> pop[i].id == i && pop[i].parent == None
    ensures PopFits(pop, [], 0) && Known(who, pop, [], |pop|) && WellBred([]) && IsHistory([], [])
    ensures IsClassBest(None, false, []) && IsClassBest(None, true, [])
  {
    who := pop;
  }

  /** Ranking a population shuffles it, so its members keep their standing. */
  lemma RankingKeeps(pop: seq<Indiv>, evaluated: seq<Scored>, scored: seq<Scored>, lineage: seq<LineageNode>, gen: nat,
      who: seq<Indiv>, nextId: nat)
    requires PopFits(pop, lineage, gen) && Known(who, pop, lineage, nextId)
    requires |evaluated| == |pop| && forall i :: 0 <= i < |pop| ==> evaluated[i].indiv == pop[i]
    requires multiset(evaluated) == multiset(scored) && |scored| == |pop|
    ensures PopFits(Individuals(scored), lineage, gen) && Known(who, Individuals(scored), lineage, nextId)
  {
    hide Lineal;
    forall i | 0 <= i < |scored| ensures scored[i].indiv in pop {
      assert scored[i] in multiset(evaluated);
    }
  }

  lemma RecordingFits(scored: seq<Scored>, lineage: seq<LineageNode>, gen: nat, who: seq<Indiv>, nextId: nat)
    requires PopFits(Individuals(scored), lineage, gen) && Known(who, Individuals(scored), lineage, nextId)
    requires WellBred(lineage)
    ensures var all := lineage + NodesOf(scored, gen);
            && WellBred(all) && PopFits(Individuals(scored), all, gen + 1)
                && Known(who, Individuals(scored), all, nextId)
            && forall i :: 0 <= i < |scored| ==> Recorded(all, scored[i].indiv.id)
  {
    hide WellBred, Recorded;
    forall i | 0 <= i < |scored| ensures Lineal(scored[i].indiv, lineage, gen) {
      assert Individuals(scored)[i] == scored[i].indiv;
    }
    RecordingKeepsTree(lineage, scored, gen);
    var all := lineage + NodesOf(scored, gen);
    forall i | 0 <= i < |scored| ensures Recorded(all, scored[i].indiv.id) {
      RecordingRecords(lineage, scored, gen, i);
    }
    forall i | 0 <= i < |all|
      ensures all[i].id < nextId && who[all[i].id] == Indiv(all[i].genome, all[i].id, all[i].parent)
    {
      if i >= |lineage| {
        assert Individuals(scored)[i - |lineage|] == scored[i - |lineage|].indiv;
      }
    }
  }

  /** How many of `n` ranked individuals may have children. */
  ghost function Survivors(n: nat): nat {
    if n / 2 + 1 <= n then n / 2 + 1 else n
  }

  /**
   * The bred population: `elite` survivors unchanged, then children with fresh ids. Each child takes two places of
   * the random stream: the first draws its parent from the better half, the second mutates that parent's genome.
   */
  ghost predicate IsBrood(w: World, next: seq<Indiv>, scored: seq<Scored>, elite: nat, nextId: nat, draws: nat) {
    && elite <= |scored| && elite <= |next|
    && (forall i :: 0 <= i < elite ==> next[i] == scored[i].indiv)
    && (forall i :: elite <= i < |next| ==> IsChild(w, next[i], scored, nextId + (i - elite), draws + 2 * (i - elite)))
  }

  ghost predicate IsChild(w: World, child: Indiv, scored: seq<Scored>, id: nat, place: nat) {
    var j := w.below(place, Survivors(|scored|));
    && j < |scored|
    && child == Indiv(w.mutate(scored[j].indiv.genome, place + 1), id, Some(scored[j].indiv.id))
  }

  lemma BroodFits(w: World, scored: seq<Scored>, all: seq<LineageNode>, gen: nat, next: seq<Indiv>, elite: nat,
      nextId: nat, draws: nat)
    requires IsBrood(w, next, scored, elite, nextId, draws)
    requires PopFits(Individuals(scored), all, gen + 1)
    requires forall i :: 0 <= i < |scored| ==> Recorded(all, scored[i].indiv.id)
    ensures PopFits(next, all, gen + 1)
  {
    hide Recorded;
    forall i | 0 <= i < |next| ensures Lineal(next[i], all, gen + 1) {
      if i >= elite {
        assert IsChild(w, next[i], scored, nextId + (i - elite), draws + 2 * (i - elite));
      }
    }
  }

  lemma BroodIsKnown(w: World, scored: seq<Scored>, all: seq<LineageNode>, next: seq<Indiv>, elite: nat,
      who: seq<Indiv>, nextId: nat, draws: nat)
    returns (whoElse: seq<Indiv>)
    requires IsBrood(w, next, scored, elite, nextId, draws) && Known(who, Individuals(scored), all, nextId)
    ensures Known(whoElse, next, all, nextId + (|next| - elite))
  {
    whoElse := who + next[elite..];
    forall i | 0 <= i < |next| ensures next[i].id < |whoElse| && whoElse[next[i].id] == next[i] {
      if i < elite {
        assert Individuals(scored)[i] == next[i];
      } else {
        assert IsChild(w, next[i], scored, nextId + (i - elite), draws + 2 * (i - elite));
      }
    }
  }

  lemma KnownIsIdentified(who: seq<Indiv>, pop: seq<Indiv>, lineage: seq<LineageNode>, nextId: nat)
    requires Known(who, pop, lineage, nextId)
    ensures Identified(lineage)
  {
    forall i, j | 0 <= i < |lineage| && 0 <= j < |lineage| && lineage[i].id == lineage[j].id
      ensures lineage[i].genome == lineage[j].genome && lineage[i].parent == lineage[j].parent
    {
      assert who[lineage[i].id] == who[lineage[j].id];
    }
  }

  lemma HeadIsLeast(w: World, evaluated: seq<Scored>, scored: seq<Scored>, i: nat)
    requires Ranked(w, scored) && multiset(evaluated) == multiset(scored) && i < |evaluated|
    ensures scored != [] && scored[0].e <= evaluated[i].e
  {
    assert evaluated[i] in multiset(evaluated);
    assert evaluated[i] in multiset(scored);
    var j :| 0 <= j < |scored| && scored[j] == evaluated[i];
    HeadRanksFirst(w, scored, j);
  }

  lemma ChampionIsRecorded(best: Scored, lineage: seq<LineageNode>)
    requires BestOf(best, lineage)
    ensures Recorded(lineage, best.indiv.id)
  {
    var k :| 0 <= k < |lineage| && lineage[k].exploitability == best.e && lineage[k].id == best.indiv.id
        && lineage[k].genome == best.indiv.genome;
    EarliestExists(lineage, k);
  }

  function Times(m: nat, n: nat): nat {
    m * n
  }

  lemma OneMoreTime(m: nat, n: nat)
    ensures Times(m + 1, n) == Times(m, n) + n
  {
  }

  // ---------------------------------------------------------------- inheritance

  /** The genomes of the first population: the given seeds, and then random ones. */
  ghost function SeedGenome(w: World, draws: nat, i: nat): Genome {
    if i < |w.seeds| then w.seeds[i] else w.random(draws + i - |w.seeds|)
  }

  /** What the search starts with: the size of a population, and the places of the random stream. */
  datatype Setting = Setting(world: World, size: nat, elite: nat, start: nat, first: nat)

  /**
   * Where an individual new in generation `gen` comes from. Child number `n` of the whole run takes the places
   * `first + 2 * n` and the next one: its parent is the one drawn from the better half of the ranking before, and its
   * genome is the mutation of that parent's genome.
   */
  ghost predicate Begot(c: Setting, lineage: seq<LineageNode>, ind: Indiv, gen: nat) {
    match ind.parent
    case None => gen == 0 && ind.id < c.size && ind.genome == SeedGenome(c.world, c.start, ind.id)
    case Some(q) =>
      && gen > 0 && ind.id >= c.size
      && var place := c.first + 2 * (ind.id - c.size);
         var p := Times(gen - 1, c.size) + c.world.below(place, Survivors(c.size));
         && p < |lineage| && lineage[p].generation == gen - 1 && lineage[p].id == q
         && ind.genome == c.world.mutate(lineage[p].genome, place + 1)
  }

  ghost function IndivOf(node: LineageNode): Indiv {
    Indiv(node.genome, node.id, node.parent)
  }

  /** Every recorded individual comes from where it says. */
  ghost predicate Inherited(c: Setting, lineage: seq<LineageNode>) {
    forall i :: IsBirth(lineage, i) ==> Begot(c, lineage, IndivOf(lineage[i]), lineage[i].generation)
  }

  ghost predicate BegotAll(c: Setting, pop: seq<Indiv>, lineage: seq<LineageNode>, gen: nat) {
    forall i :: 0 <= i < |pop| ==> Recorded(lineage, pop[i].id) || Begot(c, lineage, pop[i], gen)
  }

  lemma BegotStays(c: Setting, lineage: seq<LineageNode>, more: seq<LineageNode>, ind: Indiv, gen: nat)
    requires Begot(c, lineage, ind, gen)
    ensures Begot(c, lineage + more, ind, gen)
  {
  }

  /** Recording a generation keeps the law. */
  lemma RecordingInherits(c: Setting, lineage: seq<LineageNode>, scored: seq<Scored>, gen: nat)
    requires Inherited(c, lineage) && BegotAll(c, Individuals(scored), lineage, gen)
    ensures Inherited(c, lineage + NodesOf(scored, gen))
  {
    hide Begot, Recorded;
    var more := NodesOf(scored, gen);
    var all := lineage + more;
    forall i | IsBirth(all, i) ensures Begot(c, all, IndivOf(all[i]), all[i].generation) {
      if i < |lineage| {
        EarlyBirth(lineage, more, i);
        BegotStays(c, lineage, more, IndivOf(lineage[i]), lineage[i].generation);
      } else {
        LateBirthIsNew(lineage, more, i);
        assert Individuals(scored)[i - |lineage|] == IndivOf(all[i]);
        BegotStays(c, lineage, more, IndivOf(all[i]), gen);
      }
    }
  }

  /** The next population comes from the generation just recorded. */
  lemma BroodInherits(c: Setting, lineage: seq<LineageNode>, scored: seq<Scored>, gen: nat, next: seq<Indiv>,
      nextId: nat, draws: nat)
    requires IsBrood(c.world, next, scored, c.elite, nextId, draws) && |scored| == c.size <= nextId
    requires |lineage| == Times(gen, c.size) && draws == c.first + 2 * (nextId - c.size)
    requires forall i :: 0 <= i < |scored| ==> Recorded(lineage + NodesOf(scored, gen), scored[i].indiv.id)
    ensures BegotAll(c, next, lineage + NodesOf(scored, gen), gen + 1)
  {
    hide Recorded, Survivors, Times;
    var all := lineage + NodesOf(scored, gen);
    forall i | 0 <= i < |next| ensures Recorded(all, next[i].id) || Begot(c, all, next[i], gen + 1) {
      if i >= c.elite {
        assert IsChild(c.world, next[i], scored, nextId + (i - c.elite), draws + 2 * (i - c.elite));
        var place := c.first + 2 * (next[i].id - c.size);
        assert place == draws + 2 * (i - c.elite);
        var j := c.world.below(place, Survivors(c.size));
        assert all[|lineage| + j] == NodeOf(scored[j], gen);
      }
    }
  }

  lemma RankingInherits(c: Setting, pop: seq<Indiv>, evaluated: seq<Scored>, scored: seq<Scored>,
      lineage: seq<LineageNode>, gen: nat)
    requires BegotAll(c, pop, lineage, gen)
    requires |evaluated| == |pop| && forall i :: 0 <= i < |pop| ==> evaluated[i].indiv == pop[i]
    requires multiset(evaluated) == multiset(scored)
    ensures BegotAll(c, Individuals(scored), lineage, gen)
  {
    hide Begot, Recorded;
    forall i | 0 <= i < |scored| ensures scored[i].indiv in pop {
      assert scored[i] in multiset(evaluated);
    }
  }

  /** The best `elite` of each generation that has a successor are recorded in the next one again. */
  ghost predicate EliteStays(c: Setting, lineage: seq<LineageNode>, gens: nat) {
    forall p :: 0 <= p < |lineage| && AmongElite(c, lineage, p) && lineage[p].generation + 1 < gens ==>
      RecordedIn(lineage, lineage[p].id, lineage[p].generation + 1)
  }

  /** Records are written down in the order of the ranking, generation after generation. */
  ghost predicate AmongElite(c: Setting, lineage: seq<LineageNode>, p: nat)
    requires p < |lineage|
  {
    p - Times(lineage[p].generation, c.size) < c.elite
  }

  ghost predicate RecordedIn(lineage: seq<LineageNode>, id: nat, gen: nat) {
    exists k :: 0 <= k < |lineage| && lineage[k].generation == gen && lineage[k].id == id
  }

  ghost predicate EliteWaits(c: Setting, pop: seq<Indiv>, lineage: seq<LineageNode>, gen: nat) {
    forall p :: 0 <= p < |lineage| && AmongElite(c, lineage, p) && lineage[p].generation + 1 == gen ==>
      exists i :: 0 <= i < |pop| && pop[i].id == lineage[p].id
  }

  lemma RecordingKeepsElite(c: Setting, lineage: seq<LineageNode>, pop: seq<Indiv>, evaluated: seq<Scored>,
      scored: seq<Scored>, gen: nat)
    requires EliteStays(c, lineage, gen) && EliteWaits(c, pop, lineage, gen)
    requires |evaluated| == |pop| && forall i :: 0 <= i < |pop| ==> evaluated[i].indiv == pop[i]
    requires multiset(evaluated) == multiset(scored)
    ensures EliteStays(c, lineage + NodesOf(scored, gen), gen + 1)
  {
    hide Times;
    var all := lineage + NodesOf(scored, gen);
    forall p | 0 <= p < |all| && AmongElite(c, all, p) && all[p].generation + 1 < gen + 1
      ensures RecordedIn(all, all[p].id, all[p].generation + 1)
    {
      assert p < |lineage| && all[p] == lineage[p] && AmongElite(c, lineage, p);
      if all[p].generation + 1 == gen {
        var i :| 0 <= i < |pop| && pop[i].id == lineage[p].id;
        assert evaluated[i] in multiset(scored);
        var k :| 0 <= k < |scored| && scored[k] == evaluated[i];
        assert all[|lineage| + k] == NodeOf(scored[k], gen);
      } else {
        var k :| 0 <= k < |lineage| && lineage[k].generation == all[p].generation + 1 && lineage[k].id == lineage[p].id;
        assert all[k] == lineage[k];
      }
    }
  }

  lemma BroodKeepsElite(c: Setting, lineage: seq<LineageNode>, scored: seq<Scored>, gen: nat, next: seq<Indiv>,
      nextId: nat, draws: nat)
    requires IsBrood(c.world, next, scored, c.elite, nextId, draws) && |lineage| == Times(gen, c.size)
    requires forall i :: 0 <= i < |lineage| ==> lineage[i].generation < gen
    ensures EliteWaits(c, next, lineage + NodesOf(scored, gen), gen + 1)
  {
    hide Times;
    var all := lineage + NodesOf(scored, gen);
    forall p | 0 <= p < |all| && AmongElite(c, all, p) && all[p].generation + 1 == gen + 1
      ensures exists i :: 0 <= i < |next| && next[i].id == all[p].id
    {
      assert p >= |lineage| && all[p] == NodeOf(scored[p - |lineage|], gen);
      assert next[p - |lineage|].id == all[p].id;
    }
  }

  lemma AllEarlier(pop: seq<Indiv>, lineage: seq<LineageNode>, gen: nat)
    requires PopFits(pop, lineage, gen)
    ensures forall i :: 0 <= i < |lineage| ==> lineage[i].generation < gen
  {
  }

  lemma GenerationInherits(c: Setting, pop: seq<Indiv>, evaluated: seq<Scored>, scored: seq<Scored>,
      lineage: seq<LineageNode>, gen: nat, next: seq<Indiv>, nextId: nat, draws: nat)
    requires Inherited(c, lineage) && BegotAll(c, pop, lineage, gen) && PopFits(pop, lineage, gen)
    requires EliteStays(c, lineage, gen) && EliteWaits(c, pop, lineage, gen)
    requires |evaluated| == |pop| == c.size <= nextId && forall i :: 0 <= i < |pop| ==> evaluated[i].indiv == pop[i]
    requires multiset(evaluated) == multiset(scored) && |scored| == |pop| && Ranked(c.world, scored)
    requires InOrder(c, lineage)
    requires IsBrood(c.world, next, scored, c.elite, nextId, draws)
    requires |lineage| == Times(gen, c.size) && draws == c.first + 2 * (nextId - c.size)
    requires forall i :: 0 <= i < |scored| ==> Recorded(lineage + NodesOf(scored, gen), scored[i].indiv.id)
    ensures var all := lineage + NodesOf(scored, gen);
            && Inherited(c, all) && BegotAll(c, next, all, gen + 1)
            && EliteStays(c, all, gen + 1) && EliteWaits(c, next, all, gen + 1) && InOrder(c, all)
  {
    hide InOrder, Ranked, Inherited, BegotAll, EliteStays, EliteWaits, PopFits, IsBrood, Recorded, Times,
        NodesOf;
    RankingInherits(c, pop, evaluated, scored, lineage, gen);
    RecordingInherits(c, lineage, scored, gen);
    BroodInherits(c, lineage, scored, gen, next, nextId, draws);
    RecordingKeepsElite(c, lineage, pop, evaluated, scored, gen);
    AllEarlier(pop, lineage, gen);
    BroodKeepsElite(c, lineage, scored, gen, next, nextId, draws);
    RecordingOrders(c, lineage, scored, gen);
  }

  lemma RecordingMeasures(w: World, was: map<string, real>, cache: map<string, real>, lineage: seq<LineageNode>,
      evaluated: seq<Scored>, scored: seq<Scored>, gen: nat)
    requires Measured(w, was, lineage) && forall k :: k in was ==> k in cache && cache[k] == was[k]
    requires forall i :: 0 <= i < |evaluated| ==>
               w.key(evaluated[i].indiv.genome) in cache
               && evaluated[i].e == cache[w.key(evaluated[i].indiv.genome)]
    requires multiset(evaluated) == multiset(scored)
    ensures Measured(w, cache, lineage + NodesOf(scored, gen))
  {
    forall i | 0 <= i < |scored| ensures scored[i] in evaluated {
      assert scored[i] in multiset(evaluated);
    }
  }

  /** The child's genome is the mutation of the parent's, at the child's place in the random stream. */
  ghost predicate Mutates(c: Setting, parent: LineageNode, child: LineageNode) {
    child.id >= c.size && child.genome == c.world.mutate(parent.genome, c.first + 2 * (child.id - c.size) + 1)
  }

  /** The genomes along a chain of births: that of the first population, and then mutation after mutation. */
  ghost predicate Descends(c: Setting, chain: seq<LineageNode>) {
    && chain != [] && chain[0].genome == SeedGenome(c.world, c.start, chain[0].id)
    && forall k :: 0 <= k < |chain| - 1 ==> Mutates(c, chain[k], chain[k + 1])
  }

  lemma NodeIsBegot(c: Setting, lineage: seq<LineageNode>, node: LineageNode)
    requires Inherited(c, lineage) && BornAs(lineage, node)
    ensures Begot(c, lineage, IndivOf(node), node.generation)
  {
    hide Begot;
    var i :| IsBirth(lineage, i) && lineage[i] == node;
  }

  lemma ParentRecord(c: Setting, lineage: seq<LineageNode>, child: LineageNode) returns (p: nat)
    requires Begot(c, lineage, IndivOf(child), child.generation) && child.parent.Some?
    ensures p < |lineage| && lineage[p].id == child.parent.value && Mutates(c, lineage[p], child)
  {
    hide Times, Survivors;
    p := Times(child.generation - 1, c.size) + c.world.below(c.first + 2 * (child.id - c.size), Survivors(c.size));
  }

  lemma OneGenome(lineage: seq<LineageNode>, p: nat, node: LineageNode)
    requires Identified(lineage) && p < |lineage| && BornAs(lineage, node) && lineage[p].id == node.id
    ensures lineage[p].genome == node.genome
  {
    var i :| IsBirth(lineage, i) && lineage[i] == node;
  }

  lemma BirthIsMutation(c: Setting, lineage: seq<LineageNode>, parent: LineageNode, child: LineageNode)
    requires Inherited(c, lineage) && Identified(lineage) && BornAs(lineage, parent) && BornAs(lineage, child)
    requires child.parent == Some(parent.id)
    ensures Mutates(c, parent, child)
  {
    hide Inherited, Identified, BornAs;
    NodeIsBegot(c, lineage, child);
    var p := ParentRecord(c, lineage, child);
    OneGenome(lineage, p, parent);
  }

  lemma BirthIsSeed(c: Setting, lineage: seq<LineageNode>, node: LineageNode)
    requires Inherited(c, lineage) && BornAs(lineage, node) && node.parent == None
    ensures node.genome == SeedGenome(c.world, c.start, node.id)
  {
    hide Inherited, BornAs;
    NodeIsBegot(c, lineage, node);
  }

  lemma AncestryDescends(c: Setting, lineage: seq<LineageNode>, chain: seq<LineageNode>, id: nat)
    requires Inherited(c, lineage) && Identified(lineage) && Ancestry(lineage, chain, id)
    ensures Descends(c, chain)
  {
    hide Inherited, Identified, BornAs, Mutates, SeedGenome;
    forall k | 0 <= k < |chain| - 1 ensures Mutates(c, chain[k], chain[k + 1]) {
      BirthIsMutation(c, lineage, chain[k], chain[k + 1]);
    }
    BirthIsSeed(c, lineage, chain[0]);
  }

  lemma FirstIsSeeded(c: Setting, pop: seq<Indiv>)
    requires |pop| == c.size
    requires forall i :: 0 <= i < |pop| ==>
               pop[i].id == i && pop[i].parent == None && pop[i].genome == SeedGenome(c.world, c.start, i)
    ensures Inherited(c, []) && BegotAll(c, pop, [], 0) && EliteStays(c, [], 0) && EliteWaits(c, pop, [], 0)
    ensures InOrder(c, []) && forall cache :: Measured(c.world, cache, [])
  {
  }

  lemma ChainIsFull(lineage: seq<LineageNode>, chain: seq<LineageNode>, id: nat)
    requires Ancestry(lineage, chain, id)
    ensures chain != []
  {
  }

  lemma ChainEndsAtChampion(lineage: seq<LineageNode>, chain: seq<LineageNode>, best: Scored)
    requires Identified(lineage) && Ancestry(lineage, chain, best.indiv.id) && BestOf(best, lineage)
    ensures chain[|chain| - 1].genome == best.indiv.genome
  {
    assert BornAs(lineage, chain[|chain| - 1]);
  }

  /** Each generation fills its own `size` places, from the least exploitable record on and equal ones by key. */
  ghost predicate InOrder(c: Setting, lineage: seq<LineageNode>) {
    && (forall p :: 0 <= p < |lineage| ==> 0 <= p - Times(lineage[p].generation, c.size) < c.size)
    && (forall p, q :: 0 <= p < q < |lineage| && lineage[p].generation == lineage[q].generation ==>
          || lineage[p].exploitability < lineage[q].exploitability
          || (lineage[p].exploitability == lineage[q].exploitability
              && TextAtMost(c.world.key(lineage[p].genome), c.world.key(lineage[q].genome))))
  }

  lemma RecordingOrders(c: Setting, lineage: seq<LineageNode>, scored: seq<Scored>, gen: nat)
    requires InOrder(c, lineage) && |lineage| == Times(gen, c.size) && |scored| == c.size && Ranked(c.world, scored)
    requires forall i :: 0 <= i < |lineage| ==> lineage[i].generation < gen
    ensures InOrder(c, lineage + NodesOf(scored, gen))
  {
    hide Times, TextAtMost;
    var all := lineage + NodesOf(scored, gen);
    forall p, q | 0 <= p < q < |all| && all[p].generation == all[q].generation
      ensures || all[p].exploitability < all[q].exploitability
              || (all[p].exploitability == all[q].exploitability
                  && TextAtMost(c.world.key(all[p].genome), c.world.key(all[q].genome)))
    {
      if q >= |lineage| {
        assert RanksBefore(c.world, scored[p - |lineage|], scored[q - |lineage|]);
      }
    }
  }

  /** Every record gives the cached evaluation of its genome's key. */
  ghost predicate Measured(w: World, cache: map<string, real>, lineage: seq<LineageNode>) {
    forall i :: 0 <= i < |lineage| ==>
      w.key(lineage[i].genome) in cache && lineage[i].exploitability == cache[w.key(lineage[i].genome)]
  }

  /** The search between two generations. */
  datatype Progress = Progress(
    pop: seq<Indiv>,
    nextId: nat,
    lineage: seq<LineageNode>,
    best: Option<Scored>,
    bestStatic: Option<real>,
    bestDynamic: Option<real>,
    history: seq<real>)

  datatype Report = Report(
    champion: Scored,
    baseline: real,
    bestStatic: Option<real>,
    bestDynamic: Option<real>,
    history: seq<real>,
    lineage: seq<LineageNode>,
    ancestry: seq<LineageNode>)

  class Search {
    const world: World
    const config: Config
    var cache: map<string, real>
    var draws: nat

    constructor (world: World, config: Config)
      ensures this.world == world && this.config == config && cache == map[] && draws == 0
    {
      this.world, this.config, cache, draws := world, config, map[], 0;
    }

    /** Every memo entry is the evaluation of some genome with that key. */
    ghost predicate Faithful()
      reads this`cache
    {
      forall k :: k in cache ==> exists g :: world.key(g) == k && world.evaluate(g) == cache[k]
    }

    /** The memo: one evaluation per key, never changed afterwards. */
    method Score(g: Genome) returns (e: real)
      requires Faithful()
      modifies this`cache
      ensures Faithful()
      ensures world.key(g) in cache && e == cache[world.key(g)]
      ensures forall k :: k in old(cache) ==> k in cache && cache[k] == old(cache[k])
      ensures world.key(g) !in old(cache) ==> e == world.evaluate(g)
      ensures (forall h :: world.key(h) == world.key(g) ==> world.evaluate(h) == world.evaluate(g)) ==>
              e == world.evaluate(g)
    {
      if world.key(g) in cache { return cache[world.key(g)]; }
      e := world.evaluate(g);
      cache := cache[world.key(g) := e];
    }

    method ScoreAll(pop: seq<Indiv>) returns (scored: seq<Scored>)
      requires Faithful()
      modifies this`cache
      ensures Faithful()
      ensures |scored| == |pop|
      ensures forall k :: k in old(cache) ==> k in cache && cache[k] == old(cache[k])
      ensures forall i :: 0 <= i < |pop| ==>
              scored[i].indiv == pop[i] && world.key(pop[i].genome) in cache
                  && scored[i].e == cache[world.key(pop[i].genome)]
    {
      scored := [];
      for i := 0 to |pop|
        invariant Faithful() && |scored| == i
        invariant forall k :: k in old(cache) ==> k in cache && cache[k] == old(cache[k])
        invariant forall j :: 0 <= j < i ==>
                  scored[j].indiv == pop[j] && world.key(pop[j].genome) in cache
                      && scored[j].e == cache[world.key(pop[j].genome)]
      {
        var e := Score(pop[i].genome);
        scored := scored + [Scored(pop[i], e)];
      }
    }

    method SeedPopulation() returns (pop: seq<Indiv>)
      modifies this`draws
      ensures |pop| == config.population
      ensures forall i :: 0 <= i < |pop| ==> pop[i].id == i && pop[i].parent == None
      ensures forall i :: 0 <= i < |pop| ==> pop[i].genome == SeedGenome(world, old(draws), i)
      ensures draws == old(draws) + if |pop| > |world.seeds| then |pop| - |world.seeds| else 0
    {
      pop := [];
      for i := 0 to |world.seeds|
        invariant |pop| == (if i < config.population then i else config.population)
        invariant forall j :: 0 <= j < |pop| ==> pop[j] == Indiv(world.seeds[j], j, None)
      {
        if |pop| >= config.population { break; }
        pop := pop + [Indiv(world.seeds[i], |pop|, None)];
      }
      while |pop| < config.population
        invariant |pop| <= config.population
        invariant |pop| == config.population || |pop| >= |world.seeds|
        invariant draws == old(draws) + if |pop| > |world.seeds| then |pop| - |world.seeds| else 0
        invariant forall j :: 0 <= j < |pop| ==> pop[j] == Indiv(SeedGenome(world, old(draws), j), j, None)
      {
        pop := pop + [Indiv(world.random(draws), |pop|, None)];
        draws := draws + 1;
      }
    }

    /** The next population: elites unchanged, then children of the better half with fresh ids. */
    method Breed(scored: seq<Scored>, nextId: nat) returns (next: seq<Indiv>, after: nat)
      requires Lawful(world) && |scored| == config.population > 0
      modifies this`draws
      ensures |next| == config.population
      ensures var elite := if config.elite < config.population then config.elite else config.population;
              && IsBrood(world, next, scored, elite, nextId, old(draws))
              && after == nextId + (|next| - elite) && draws == old(draws) + 2 * (|next| - elite)
    {
      var elite := if config.elite < |scored| then config.elite else |scored|;
      var half := if |scored| / 2 + 1 < |scored| then |scored| / 2 + 1 else |scored|;
      next, after := seq(elite, i requires 0 <= i < elite => scored[i].indiv), nextId;
      while |next| < config.population
        invariant elite <= |next| <= config.population && after == nextId + (|next| - elite)
        invariant draws == old(draws) + 2 * (|next| - elite)
        invariant IsBrood(world, next, scored, elite, nextId, old(draws))
      {
        var pick := world.below(draws, half);
        var parent := scored[pick].indiv;
        var child := Indiv(world.mutate(parent.genome, draws + 1), after, Some(parent.id));
        assert IsChild(world, child, scored, after, draws);
        next, after, draws := next + [child], after + 1, draws + 2;
      }
    }

    /** Records one ranked generation and updates the two per-class bests. */
    method Note(scored: seq<Scored>, gen: nat, lineage: seq<LineageNode>, s: Option<real>, d: Option<real>)
      returns (all: seq<LineageNode>, bestStatic: Option<real>, bestDynamic: Option<real>)
      requires IsClassBest(s, false, lineage) && IsClassBest(d, true, lineage)
      ensures all == lineage + NodesOf(scored, gen)
      ensures IsClassBest(bestStatic, false, all) && IsClassBest(bestDynamic, true, all)
    {
      hide IsClassBest, Lower;
      all, bestStatic, bestDynamic := lineage, s, d;
      for i := 0 to |scored|
        invariant all == lineage + NodesOf(scored, gen)[..i]
        invariant IsClassBest(bestStatic, false, all) && IsClassBest(bestDynamic, true, all)
      {
        var node := NodeOf(scored[i], gen);
        ClassBestStep(bestStatic, false, all, node);
        ClassBestStep(bestDynamic, true, all, node);
        all := all + [node];
        if IsDynamic(node.genome) {
          bestDynamic := Lower(bestDynamic, node.exploitability);
        } else {
          bestStatic := Lower(bestStatic, node.exploitability);
        }
      }
    }

    /** What holds between generations: everything the report will claim, for the generations so far. */
    ghost predicate Going(s: Progress, gen: nat, who: seq<Indiv>, baseline: real, start: nat)
      requires |world.seeds| >= 2
      reads this`cache, this`draws
    {
      && Measured(world, cache, s.lineage) && Lineally(s, gen, start)
      && Faithful() && world.key(world.seeds[1]) in cache && cache[world.key(world.seeds[1])] == baseline
      && |s.pop| == config.population && |s.lineage| == Times(gen, config.population)
      && PopFits(s.pop, s.lineage, gen) && Known(who, s.pop, s.lineage, s.nextId) && WellBred(s.lineage)
      && |s.history| == gen && IsHistory(s.history, s.lineage)
      && IsClassBest(s.bestStatic, false, s.lineage) && IsClassBest(s.bestDynamic, true, s.lineage)
      && (gen == 0 ==> s.lineage == [] && s.best == None && (|s.pop| >= 2 ==> s.pop[1].genome == world.seeds[1]))
      && (gen > 0 ==> s.best.Some? && BestOf(s.best.value, s.lineage) && s.history[gen - 1] == -s.best.value.e)
      && (gen > 0 && config.population >= 2 ==> s.best.value.e <= baseline)
    }

    ghost function From(start: nat): Setting {
      Setting(world, config.population,
        if config.elite < config.population then config.elite else config.population,
        start,
        start + if config.population > |world.seeds| then config.population - |world.seeds| else 0)
    }

    /** Where everybody comes from, and who is carried over. */
    ghost predicate Lineally(s: Progress, gen: nat, start: nat)
      reads this`draws
    {
      var c := From(start);
      && c.size <= s.nextId && draws == c.first + 2 * (s.nextId - c.size)
      && Inherited(c, s.lineage) && BegotAll(c, s.pop, s.lineage, gen)
      && EliteStays(c, s.lineage, gen) && EliteWaits(c, s.pop, s.lineage, gen) && InOrder(c, s.lineage)
    }

    /** One generation: score, rank, record, and breed the next. */
    method Generation(s: Progress, gen: nat, ghost who: seq<Indiv>, ghost baseline: real, ghost start: nat)
      returns (t: Progress, ghost known: seq<Indiv>)
      requires Lawful(world) && config.population > 0 && |world.seeds| >= 2 && Going(s, gen, who, baseline, start)
      modifies this`cache, this`draws
      ensures Going(t, gen + 1, known, baseline, start)
    {
      hide PopFits, Known, WellBred, IsHistory, IsClassBest, BestOf, Lawful, Faithful, Ranked, Rank, NodesOf,
          Individuals, IsBrood, RanksBefore, Recorded, Champion, Times, Inherited, BegotAll, EliteStays, EliteWaits,
          Measured, InOrder;
      ghost var c, drawn := From(start), draws;
      ghost var was := cache;
      OneMoreTime(gen, config.population);
      var evaluated := ScoreAll(s.pop);
      var scored := Rank(world, evaluated);
      RankIsSorted(world, evaluated);
      RankingKeeps(s.pop, evaluated, scored, s.lineage, gen, who, s.nextId);
      if gen == 0 && |s.pop| >= 2 {
        HeadIsLeast(world, evaluated, scored, 1);
      }
      var champion := Champion(s.best, scored[0]);
      ChampionIsBest(world, s.best, scored, s.lineage, gen);
      HistoryStep(s.pop, s.history, s.lineage, scored, gen, champion);
      RecordingFits(scored, s.lineage, gen, who, s.nextId);
      var lineage, bestStatic, bestDynamic := Note(scored, gen, s.lineage, s.bestStatic, s.bestDynamic);
      var next, after := Breed(scored, s.nextId);
      BroodFits(world, scored, lineage, gen, next, c.elite, s.nextId, drawn);
      known := BroodIsKnown(world, scored, lineage, next, c.elite, who, s.nextId, drawn);
      GenerationInherits(c, s.pop, evaluated, scored, s.lineage, gen, next, s.nextId, drawn);
      RecordingMeasures(world, was, cache, s.lineage, evaluated, scored, gen);
      t := Progress(next, after, lineage, Some(champion), bestStatic, bestDynamic, s.history + [-champion.e]);
    }

    /** The whole search; the report's claims hold for every evaluation and every random stream. */
    method Evolve() returns (r: Report)
      requires Lawful(world) && config.population > 0 && config.generations > 0
      requires |world.seeds| >= 2 && cache == map[]
      modifies this
      ensures |r.lineage| == config.generations * config.population && WellBred(r.lineage) && Identified(r.lineage)
      ensures BestOf(r.champion, r.lineage) && Ancestry(r.lineage, r.ancestry, r.champion.indiv.id)
      ensures |r.history| == config.generations && IsHistory(r.history, r.lineage)
      ensures r.history[config.generations - 1] == -r.champion.e
      ensures IsClassBest(r.bestStatic, false, r.lineage) && IsClassBest(r.bestDynamic, true, r.lineage)
      ensures Inherited(From(old(draws)), r.lineage) && EliteStays(From(old(draws)), r.lineage, config.generations)
      ensures Descends(From(old(draws)), r.ancestry) && InOrder(From(old(draws)), r.lineage)
      ensures r.ancestry[|r.ancestry| - 1].genome == r.champion.indiv.genome
      ensures Faithful() && Measured(world, cache, r.lineage)
      ensures r.baseline == world.evaluate(world.seeds[1])
      ensures config.population >= 2 ==> r.champion.e <= r.baseline
    {
      hide PopFits, Known, WellBred, IsHistory, IsClassBest, BestOf, Lawful, Ancestry, Identified, Recorded, Inherited,
          BegotAll, EliteStays, EliteWaits, Measured, InOrder;
      ghost var start := draws;
      var baseline := Score(world.seeds[1]);
      var pop := SeedPopulation();
      ghost var who := FirstPopulation(pop);
      FirstIsSeeded(From(start), pop);
      var s := Progress(pop, |pop|, [], None, None, None, []);
      for gen := 0 to config.generations
        invariant Going(s, gen, who, baseline, start)
      {
        s, who := Generation(s, gen, who, baseline, start);
      }
      ChampionIsRecorded(s.best.value, s.lineage);
      KnownIsIdentified(who, s.pop, s.lineage, s.nextId);
      var ancestry := TraceAncestry(s.lineage, s.best.value.indiv.id);
      AncestryDescends(From(start), s.lineage, ancestry, s.best.value.indiv.id);
      ChainEndsAtChampion(s.lineage, ancestry, s.best.value);
      ChainIsFull(s.lineage, ancestry, s.best.value.indiv.id);
      r := Report(s.best.value, baseline, s.bestStatic, s.bestDynamic, s.history, s.lineage, ancestry);
    }
  }
}
