# Verified model of the solver, evidence and admission cores

This project models the stateful cores of the repository in Dafny and proves what their comments, tests and
documentation promise. `dafny verify dfyconfig.toml` checks everything.

**Poker solver** (`Reals`, `Game`, `Paths`, `Schedule`, `Cfr`, `Exploit`, `Convergence`, `Rate`, `Darwin`). A game is a
finite tree carrying the keys the `Game` trait hands out; payoffs, probabilities and regrets are reals. `Paths` writes a
game out as the list of its plays; every value, reach and average below is stated against sums over those. `Cfr.Solver`
is the solver with its mutable table: every traversal returns the exact expected payoff and adds exactly its increments,
and each pass records in a ghost `Cut` which actions it pruned, so that pruning is accounted for action by action.
`Exploit.Responder` is the best-response oracle with its growing policy and memo; its value is proved to be the
maximum over all responder strategies. `Convergence` joins the two: what the solver stores bounds the exploitability
of the strategy it averages, for CFR+ (the default) as for Vanilla and Linear CFR, and `Rate` says after how many
iterations that is small. `Darwin.Search` is the evolutionary search over solver genomes, with the origin of every genome
it records.

**Evidence** (`BeliefGraph`, `BeliefComponents`, `BeliefHistory`, `Supervisor`, `AvoBindings`, `AvoCourse`,
`AvoArchive`, `AvoLoop`, `AvoRuns`, `Compaction`). Belief keys and observation hashes are free terms, so each
determines what was hashed. The validators are methods proved to accept exactly a declarative condition, and that
condition is compared with what real runs build: where it falls short, the missing condition is named and the two
together are proved exact.

**Session log** (`CanonicalJson`, `CanonicalText`, `Session`). The canonical printer is inverted by a reader, and
`CanonicalText` describes the text it writes character by character; the chained hash is taken over an arbitrary digest
function that tells apart the texts actually digested.

**Admission and concurrency** (`PromiseLocks`, `EpisodeStore`, `OfficialFactory`). Asynchronous code is cut at every
`await`: each method is one atomic step, its `requires` says when the step can happen, and the invariant is kept by
all of them, hence by every interleaving.

**Statistics** (`Stats`). The loops agree with brute-force definitions for every random stream.

## Premises

- A poker game has perfect recall, one depth and one action count per information set, unique state keys
  (`Exploit.Respects`), and zero-sum payoffs where stated. Only `Rate` needs chance probabilities to be non-negative and to
  sum to one (`Rate.FairChance`).
- The digest of the session hash renders 64 lower-case hexadecimal digits and separates the texts that the two chains
  at hand digest (`Session.TellsApart`); no injective digest of all texts is assumed.
- `BeliefHistory` takes the receipt chain as verified (`BeliefHistory.Contiguous`): numbered from 1, each receipt
  starting at the belief where the last ended, its effect flag true to its two observation hashes, and its action fit for
  the state before it (`receipts.ts` checks these). `BeliefHistory.CheckpointIsExact` takes the checkpoint's own
  observation as one whose hash is that of its contents (`checkpoint.ts:365` checks it).
- `Convergence` and `Rate` speak of Vanilla, Linear and CFR+ without pruning (`Convergence.Plain`);
  `Convergence.SolverRate` and `Rate` of runs without momentum.
- JSON objects hold no key twice (`CanonicalText.Keyed`), as the map they are read into guarantees.
- Random draws are arbitrary streams in [0, 1); DCFR discounts are given numbers.

## Where code and claims differ

- `stats.ts` tests sign bits with 32-bit `&`. The exact branch therefore enumerates every choice of signs only up to 32
  clusters; `Stats.EachFlipOnce` states the limit as an if-and-only-if, `Stats.WideCount` what is counted beyond it, and
  `Stats.ThirtyThreeOnes` a p-value of zero where the observation itself reaches its goal.
- `avo-loop.ts` cites controller receipts one to one only while no plan step is answered from the controller's
  idempotency ledger and no call throws after its receipt was appended (a failed commit, or a supervisor case that cannot
  be opened after a divergence). `AvoCourse.CompletedIsAppended` is the exact condition for a plan, and
  `AvoLoop.Accounts`, which `AvoLoop.ArcAvoLoop.StepWithCandidates` promises of every decision, says which plans break the
  binding, which mend it, and which rule out every later checkpoint. `AvoRuns.ReplayBreaksBinding`,
  `AvoRuns.LossBreaksBinding` and `AvoRuns.ReplayMendsBinding` are runs of the loop that do so. A loop that does not bind
  can be mended at once exactly when `AvoLoop.Mendable` holds (`AvoRuns.Mend`, `AvoLoop.MendedWasMendable`);
  `AvoRuns.UndoomedButStuck` is one that is not doomed and still never binds again.
- `avo-loop.ts` emits checkpoints that it will not take up. A plan that comes back with one receipt twice is refused its
  outcome, and its selection stays in the archive without one; `checkpoint` does not mind, but loading insists on one
  outcome for each selection (`plan-archive.ts:1001-1020`). From then on no checkpoint of the run can be resumed, mended
  or not: `AvoRuns.SaveAndResume` states this as an if-and-only-if, `AvoLoop.Accounts` that a refusal is never forgotten and
  that until then the loop stands where its controller is, and `AvoRuns.ReplayMendsBinding` and `AvoRuns.MendInVain` that
  mending is no help. `AvoRuns.LeftBehind` is a run whose refused outcome also moves the loop away from its controller.
- `checkpoint.ts` leaves the current belief unchecked in `validateCheckpointBeliefHistory` once there are receipts
  (`BeliefHistory.CurrentIsNotChecked`); the later cross-field checks close that gap. Two others stay open: no node's
  actions are compared with its observation hash, which commits to them (`canonical.ts:587-594`), and the frame of the
  genesis node is looked at only through the effect class of the first transition (`checkpoint.ts:787-813`).
  `BeliefHistory.ForgeriesPass` says exactly which changes of a run's checkpoint go unnoticed and that no run builds any of
  them: any actions at any node; and any frame at the genesis if the first receipt ends the game or changes levels, or if
  old and new frame agree on being the one it ends on. `BeliefHistory.HistoryIsExact` and
  `BeliefHistory.CheckpointIsExact` are exact once `BeliefHistory.Honest` is added: nodes record what their observation
  hashes commit to, and receipts take actions that were on offer. The order of nodes and edges is never checked.
- `controller.ts` can put two records of one case into a run: when a case that was resolved is detected and decided again
  at the same receipt, and when the boss opens a case while the directive on it is being logged. No later checkpoint of
  the run verifies. `Supervisor.Run.WriteDirective` says exactly when it happens, `Supervisor.TwiceStays` and
  `Supervisor.Run.Checkpoint` that it lasts, `Supervisor.DecidedTwice` and `Supervisor.OpenedMeanwhile` are two runs.
- `official-factory.ts` keeps failed, retried and released episodes on record, and final acceptance demands as many
  episodes as assignments. Once an episode has failed to start or has been released the run can no longer be accepted
  (`OfficialFactory.SpoiledRulesOutAcceptance`), and until then its queue can be (`OfficialFactory.CompleteQueue`), although
  retrying is offered: `OfficialFactory.RetriedRun` is such a run.
- `darwin.rs` keys its memo by a rounded rendering of the genes, so two genomes that render alike share one evaluation;
  `Darwin.Search.Score` says when the score is the genome's own.
- `cfr.rs` floors CFR+ regrets at every history's update, not once per iteration, so that what is stored is not a
  function of an iteration's summed regret. It is never negative and lies between the sum of its increments, or of those
  of any last part of the run, and that of the positive parts, history by history. That is enough: squared regrets grow by
  at most the squared increments and squared gains of an iteration (`Cfr.FlooredPotential`), and with linear averaging the
  floored regrets bound the exploitability (`Convergence.FlooredRegret`, `Convergence.SolverIsNearNash`).

## Model

| member | source | states |
|---|---|---|
| `Game.RegretMatching` | crates/poker-darwin/src/game.rs:118-136 | the buffer ends up holding the matched row: positive regrets normalised, uniform when none is positive |
| `Game.MatchedIsDistribution` | crates/poker-darwin/src/game.rs:118-136 | a matched row is a probability distribution |
| `Game.MatchedIsProportional` | crates/poker-darwin/src/game.rs:118-136 | the row is the positive part of the regrets up to one common factor |
| `Game.UtilitiesCancel` | crates/poker-darwin/src/game.rs:59-60 | in a zero-sum game the two players' expected payoffs cancel under every pair of strategies |
| `Paths.PathsAreAll` | crates/poker-darwin/src/exploit.rs:96-147 | the listed paths to a target are exactly the choices that lead there, and `PathsAreDistinct` says that none is listed twice |
| `Paths.UtilityIsExpected` | crates/poker-darwin/src/exploit.rs:111-147 | the value of a game under two strategies is the sum over all its plays of the payoff, times the chance probabilities on the way, times both players' table entries for their moves |
| `Exploit.HistoriesArePaths` | crates/poker-darwin/src/exploit.rs:35-82 | the collected histories of an information set are all the paths to it in traversal order, each reached as often as the product of the chance probabilities and the opponent's entries on the way |
| `Exploit.UtilityIsLocal` | crates/poker-darwin/src/exploit.rs:96-147 | the value of a subtree depends only on the rows of information sets inside it, which is what makes a memo entry reusable |
| `Exploit.RowChange` | crates/poker-darwin/src/exploit.rs:151-199 | replacing the row of one information set changes the value of the game by the reach-weighted change at its histories |
| `Exploit.OwnReachIsShared` | crates/poker-darwin/src/exploit.rs:22-82 | with perfect recall the responder reaches all histories of an information set equally often, so the opponent-and-chance reach ranks actions correctly |
| `Exploit.ResolvingHelps` | crates/poker-darwin/src/exploit.rs:151-199 | committing an information set to an action of greatest counterfactual value never costs the responder anything, whatever it does elsewhere |
| `Exploit.InfosetValueByAction` | crates/poker-darwin/src/exploit.rs:160-189 | summing over histories first or over actions first gives the same counterfactual value |
| `Exploit.DeeperIsEarlier` | crates/poker-darwin/src/exploit.rs:159-170 | in the deepest-first order every deeper information set comes before a shallower one |
| `Exploit.ChildrenResolved` | crates/poker-darwin/src/exploit.rs:96-199 | whatever lies below a history of the information set being resolved has been resolved already, so no lookup meets an unresolved set |
| `Exploit.MemoSurvives` | crates/poker-darwin/src/exploit.rs:96-147 | resolving a further information set makes no memo entry stale |
| `Exploit.CollectedStates` | crates/poker-darwin/src/exploit.rs:28-82 | the collected table lists, for every information set of the responder and no other, exactly its histories with their reach and depth |
| `Exploit.Responder.Collect` | crates/poker-darwin/src/exploit.rs:28-82 | the traversal pushes every responder history, in order, under its information set |
| `Exploit.Responder.Value` | crates/poker-darwin/src/exploit.rs:96-147 | the memoised value is what the policy so far can expect to earn, summed over all plays with their chance probabilities, and every memo entry stays true |
| `Exploit.Responder.Order` | crates/poker-darwin/src/exploit.rs:159-170 | all collected information sets, each once, deepest first |
| `Exploit.Responder.Evaluate` | crates/poker-darwin/src/exploit.rs:171-184 | the counterfactual value of taking one action throughout an information set |
| `Exploit.Responder.Choose` | crates/poker-darwin/src/exploit.rs:171-189 | the first action of greatest counterfactual value |
| `Exploit.Responder.Resolve` | crates/poker-darwin/src/exploit.rs:168-193 | after each step the choices made so far never lower the value of any strategy they override |
| `Exploit.Responder.BestResponse` | crates/poker-darwin/src/exploit.rs:151-199 | the returned value is the most that any strategy of the responder can expect to earn against the profile, summed over all plays with their chance probabilities, and some strategy earns it |
| `Exploit.ExploitabilityMeasuresNash` | crates/poker-darwin/src/exploit.rs:201-208 | half the sum of the two best-response values is non-negative in a zero-sum game, and zero exactly at a Nash profile |
| `Exploit.Exploitability` | crates/poker-darwin/src/exploit.rs:201-208 | the reported number is the half sum of the two best responses to the profile, in expected payoff over all plays: non-negative, and zero if and only if neither player can gain |
| `Cfr.IncrementsBalance` | crates/poker-darwin/src/cfr.rs:488-510 | the strategy in force is orthogonal to the regret increments a pass adds at any information set, pruned or not |
| `Cfr.PotentialStep` | crates/poker-darwin/src/cfr.rs:488-510 | regrets moved by an increment orthogonal to the matched row gain at most its squared length in squared positive part |
| `Cfr.PruningOffIsWhole` | crates/poker-darwin/src/cfr.rs:466-478 | with pruning off every action of the tree is evaluated |
| `Cfr.PruningKeepsAverages` | crates/poker-darwin/src/cfr.rs:466-478 | whatever is pruned, a pass adds to the average strategy exactly what the whole tree would add |
| `Cfr.OnlyTraverserAccumulates` | crates/poker-darwin/src/cfr.rs:466-523 | a pass adds nothing at the opponent's information sets |
| `Cfr.PreparingKeepsView` | crates/poker-darwin/src/cfr.rs:355-410 | preparing a node early or late in an iteration changes nothing about the strategies and regrets the iteration works with |
| `Cfr.FreshlyPrepared` | crates/poker-darwin/src/cfr.rs:355-410 | a freshly prepared node plays a distribution; without momentum it is matched to the regrets; discounts in [0,1] do not raise squared positive regrets |
| `Cfr.Solver.PrepareNode` | crates/poker-darwin/src/cfr.rs:359-410 | once per iteration, entry by entry: momentum window rolled, positive and negative regrets and after iteration 1 the strategy sums discounted, strategy matched to the (extrapolated) regrets |
| `Cfr.Solver.Enter` | crates/poker-darwin/src/cfr.rs:455-464 | exactly one strategy per information set and iteration, a function of the regrets before the iteration |
| `Cfr.Solver.UpdateNode` | crates/poker-darwin/src/cfr.rs:488-510 | each evaluated action gains weight times counterfactual reach times advantage, floored under CFR+; pruned actions are left alone |
| `Cfr.Solver.CfrRec` | crates/poker-darwin/src/cfr.rs:431-523 | returns the expected payoff over all plays, chance probabilities and both players' entries multiplied along each, whatever is pruned; every accumulator takes its exact increment, exactly the nodes come to are prepared, visits and prunes are counted |
| `Cfr.Solver.Traverse` | crates/poker-darwin/src/cfr.rs:466-511 | the traverser's node: an action is skipped exactly when it has probability zero and, on entering the node, regret below the threshold |
| `Cfr.Solver.Evaluate` | crates/poker-darwin/src/cfr.rs:466-487 | the node's value is exact although pruned actions are not evaluated |
| `Cfr.Solver.Consider` | crates/poker-darwin/src/cfr.rs:471-487 | one action: skipped under the pruning rule or evaluated, with both counters kept |
| `Cfr.Solver.Descend` | crates/poker-darwin/src/cfr.rs:480-486 | one recursive call extends what the node's pass has accumulated by that child's increments |
| `Cfr.Solver.Finish` | crates/poker-darwin/src/cfr.rs:488-511 | storing the updated node completes the pass over the subtree |
| `Cfr.InfosetIteration` | crates/poker-darwin/src/cfr.rs:314-331 | over both passes of an iteration each accumulator entry grows by the owner's increments and nothing else |
| `Cfr.InfosetPotential` | crates/poker-darwin/src/cfr.rs:488-510 | one iteration raises squared positive regrets by at most the squared increments, DCFR and pruning included |
| `Cfr.IterationIsSound` | crates/poker-darwin/src/cfr.rs:314-331 | an iteration keeps everything `Sound` says of a run |
| `Cfr.NewSolverIsSound` | crates/poker-darwin/src/cfr.rs:290-298 | a new solver is sound |
| `Cfr.Solver.Iterate` | crates/poker-darwin/src/cfr.rs:314-331 | both players' passes use the strategies of the same regrets |
| `Cfr.Solver.Train` | crates/poker-darwin/src/cfr.rs:314-331 | after any number of iterations: squared positive regrets within the squared increments (with flooring, and the squared gains; momentum off), accumulators equal to the sums of their increments (floored regrets at least what was added since any earlier iteration), strategy sums faded exactly by the later discounts and non-negative, momentum source equal to the last iteration's regrets |
| `Cfr.AverageIsWeightedMean` | crates/poker-darwin/src/cfr.rs:334-349 | an average row is a distribution proportional to the sum over the iterations of how often the player took each action there, weighted 1 under Vanilla, t under Linear and CFR+, and under DCFR by what later discounts leave |
| `Cfr.AverageAdds` | crates/poker-darwin/src/cfr.rs:503-509 | what a pass adds to a strategy sum is the iteration weight times the probability of going one of the ways to the information set and taking the action, product of table entries along each way |
| `Cfr.UnprunedDiscounts` | crates/poker-darwin/src/cfr.rs:377-392 | without pruning every iteration comes to every information set, so under DCFR an iteration counts the product of all later discounts |
| `Cfr.FlooredPotential` | crates/poker-darwin/src/cfr.rs:488-510 | under CFR+ an iteration raises the squared regrets by at most its squared increments and squared gains, although it floors at every history |
| `Cfr.Solver.AverageStrategy` | crates/poker-darwin/src/cfr.rs:334-349 | one distribution per discovered information set, proportional to that weighted sum, uniform when it is zero |
| `Schedule.Clenshaw` | crates/poker-darwin/src/cfr.rs:128-141 | the Clenshaw loop equals the Chebyshev sum for every coefficient list |
| `Schedule.ClenshawStep` | crates/poker-darwin/src/cfr.rs:128-141 | one backward step keeps the value that the pair of running coefficients stands for |
| `Schedule.At` | crates/poker-darwin/src/cfr.rs:143-154 | the schedule value is the Chebyshev sum at the clamped progress, clamped to the bounds there are |
| `Schedule.ConstantStays` | crates/poker-darwin/src/cfr.rs:86-97 | an unbounded constant schedule is that constant throughout |
| `Schedule.LinearRamps` | crates/poker-darwin/src/cfr.rs:99-111 | a linear schedule is the ramp from start to end, and clamping never changes it |
| `Exploit.ProfileValueNearsGameValue` | crates/poker-darwin/src/exploit.rs:210-235 | the profile value lies between the two best responses and within twice the exploitability of the value of the game |
| `Convergence.AverageRealizes` | crates/poker-darwin/src/cfr.rs:334-349 | against the averaged strategy any strategy earns, times the total weight, what it earns against the iterations together |
| `Convergence.OneRow` | crates/poker-darwin/src/cfr.rs:488-510 | replacing one more row, shallowest first, gains the own reach times the advantage of the new row over the iteration |
| `Convergence.RegretBounded` | crates/poker-darwin/src/cfr.rs:488-510 | no strategy gains more over the iterations together than the greatest summed regrets of all information sets |
| `Convergence.RegretIncrement` | crates/poker-darwin/src/cfr.rs:488-510 | what a pass adds to a regret is the iteration weight times the counterfactual advantage of the action |
| `Convergence.AverageIncrement` | crates/poker-darwin/src/cfr.rs:503-509 | what a pass adds to a strategy sum is weight, own reach and probability, once for each history |
| `Convergence.StoredRegret` | crates/poker-darwin/src/cfr.rs:431-523 | the stored regret is the weighted sum of the advantages of all iterations |
| `Convergence.FlooredRegret` | crates/poker-darwin/src/cfr.rs:497-509 | flooring goes with linear averaging: if no last part of the regrets exceeds a bound, their linearly weighted sum is no more than the bound for every iteration |
| `Convergence.SolverAverageAt` | crates/poker-darwin/src/cfr.rs:334-349 | the averaged row of Vanilla, Linear and CFR+ is the mean of the iterations that the realization theorem asks for, weighted 1 or t |
| `Convergence.AverageIsNearNash` | crates/poker-darwin/src/cfr.rs:333-334 | the two best responses to an average earn together, times the total weight, at most the greatest summed regrets of all information sets |
| `Convergence.SolverIsNearNash` | crates/poker-darwin/src/cfr.rs:333-334 | the averaged strategy of a run is as near to Nash as its stored regrets are small against the total weight; for CFR+, averaged linearly, the floored regrets count once for every iteration |
| `Convergence.SolverRate` | crates/poker-darwin/src/cfr.rs:333-334 | with squared increments (and gains, where regrets are floored) within the square of c at each listed information set, exploitability is at most c per information set, times the iterations for CFR+, over twice the total weight |
| `Convergence.Solve` | crates/poker-darwin/src/exploit.rs:201-208 | train, average, measure: the reported exploitability is within the stored regrets, times the iterations for CFR+, over twice the total weight, and zero exactly at Nash |
| `Rate.ReachIsSpread` | crates/poker-darwin/src/cfr.rs:487-488 | with perfect recall the counterfactual reaches of an information set add up to at most one, chance and the opponent notwithstanding |
| `Rate.AdvantageWithin` | crates/poker-darwin/src/cfr.rs:495-500 | so no action gains more in an iteration than the range of payoffs |
| `Rate.GainWithin` | crates/poker-darwin/src/cfr.rs:495-500 | the positive parts of what the histories of an information set add, one by one, stay within its reach times the range of payoffs |
| `Rate.BudgetWithin` | crates/poker-darwin/src/cfr.rs:488-510 | over a run the squared regret increments (and, with flooring, gains) stay within the action count times the squared payoff range and weights |
| `Rate.WeightsOutgrow` | crates/poker-darwin/src/cfr.rs:488-510 | constant, linear or lagging behind floored regrets, the squared total weight outgrows the squared weights by the number of iterations |
| `Rate.TopsWithin` | crates/poker-darwin/src/cfr.rs:488-510 | one player's greatest stored regrets stay within that bound at every information set |
| `Rate.SolveWithin` | crates/poker-darwin/src/cfr.rs:333-334 | for Vanilla, Linear and CFR+ alike: after enough iterations, counted from information sets, actions and payoff range, the reported exploitability is at most any given eps, so it falls like one over the square root of the iterations |
| `Darwin.RankIsSorted` | crates/poker-darwin/src/darwin.rs:462-482 | ranking permutes the population and orders it by exploitability, then by genome key |
| `Darwin.RecordingKeepsTree` | crates/poker-darwin/src/darwin.rs:484-499 | recording a generation keeps every recorded individual a generation-0 seed or the child of one born strictly earlier |
| `Darwin.HistoryIsMonotone` | crates/poker-darwin/src/darwin.rs:500-512 | the best fitness so far never drops |
| `Darwin.Search.Score` | crates/poker-darwin/src/darwin.rs:397-412 | one evaluation per genome key, never changed afterwards |
| `Darwin.Search.SeedPopulation` | crates/poker-darwin/src/darwin.rs:441-461 | a full first population: the fixed seeds in order, then random genomes in the order of the stream |
| `Darwin.Search.Breed` | crates/poker-darwin/src/darwin.rs:513-533 | the elite unchanged, then children with fresh ids: each genome is the mutation, at its own place in the random stream, of the genome of the individual its parent names, drawn from the better half at the place before |
| `Darwin.GenerationInherits` | crates/poker-darwin/src/darwin.rs:470-535 | every individual new in a generation holds the mutation of the genome recorded for its parent one generation before; the elite is recorded again; records stand in the order of the ranking |
| `Darwin.AncestryDescends` | crates/poker-darwin/src/darwin.rs:375-393 | along a chain of births the first genome is one of the first population and each further one the mutation of the one before, at that child's place in the random stream |
| `Darwin.Search.Note` | crates/poker-darwin/src/darwin.rs:484-499 | each individual is recorded and the per-class bests stay the true minima |
| `Darwin.TraceAncestry` | crates/poker-darwin/src/darwin.rs:375-393 | terminates with a chain of births from a generation-0 seed to the asked individual, birth generations strictly increasing |
| `Darwin.Search.Generation` | crates/poker-darwin/src/darwin.rs:470-535 | one generation keeps everything the report will claim |
| `Darwin.Search.Evolve` | crates/poker-darwin/src/darwin.rs:426-569 | every record comes from where it says: a genome of the first population, or the mutation of that recorded for its parent, drawn from the better half; the champion is the first best of all records, never worse than the baseline, and its genome is reached by the mutations along its ancestry; elites stay, history and per-class bests exact |
| `BeliefGraph.ValidateSnapshot` | packages/arc-agi-3/src/belief-graph.ts:77-187 | the validator accepts exactly the acceptable snapshots |
| `BeliefGraph.ValidateEdges` | packages/arc-agi-3/src/belief-graph.ts:134-178 | edges, outcomes and the once-only citation of receipts, decided in one pass |
| `BeliefGraph.RecordedIsSound` | packages/arc-agi-3/src/belief-graph.ts:270-324 | recording a transition keeps the graph acceptable, one action further on, and cites its receipt once more |
| `BeliefGraph.InitializedIsSound` | packages/arc-agi-3/src/belief-graph.ts:231-245 | the genesis graph is acceptable |
| `BeliefGraph.RecordedCounts` | packages/arc-agi-3/src/belief-graph.ts:316-321 | the observable action counts stay the sums of the tested counts |
| `BeliefGraph.CountsPut` | packages/arc-agi-3/src/belief-graph.ts:316-321 | raising or adding one edge moves exactly one observable count |
| `BeliefGraph.CountsAreDetermined` | packages/arc-agi-3/src/belief-graph.ts:347-350 | the counts are determined by the edges |
| `BeliefGraph.FrontierIsTrue` | packages/arc-agi-3/src/belief-graph.ts:326-345 | the frontier offers the actions the state allows and no other, with their true counts and novelty 1 / (1 + count), least tried first and then by name |
| `BeliefGraph.FrontierPrefersUntried` | packages/arc-agi-3/src/belief-graph.ts:326-345 | no action left out of the frontier was tried less often than one offered |
| `BeliefGraph.BeliefGraph.Initialize` | packages/arc-agi-3/src/belief-graph.ts:231-245 | a foreign game is refused; otherwise the graph is its genesis node |
| `BeliefGraph.BeliefGraph.RecordTransition` | packages/arc-agi-3/src/belief-graph.ts:270-324 | the new graph is the recorded transition, the counts stay in step, the new node is current |
| `BeliefGraph.BeliefGraph.Load` | packages/arc-agi-3/src/belief-graph.ts:371-399 | loading accepts exactly the acceptable snapshots, and then holds that snapshot and its counts; a refused one changes nothing |
| `BeliefGraph.SnapshotDetermines` | packages/arc-agi-3/src/belief-graph.ts:363-369 | two graphs with the same snapshot are the same graph |
| `BeliefGraph.Reload` | packages/arc-agi-3/src/belief-graph.ts:363-399 | the snapshot of any run within the action limit loads, and the loaded graph answers current, frontier and snapshot alike |
| `BeliefComponents.ComponentIsComplete` | packages/arc-agi-3/src/belief-graph.ts:402-432 | mutually reachable observations belong to the component |
| `BeliefComponents.BuildAdjacency` | packages/arc-agi-3/src/belief-graph.ts:402-414 | the adjacency lists hold exactly the links between observations of recorded outcomes |
| `BeliefComponents.Reachable` | packages/arc-agi-3/src/belief-graph.ts:415-425 | the stack search terminates with exactly what can be reached |
| `BeliefComponents.ComponentSize` | packages/arc-agi-3/src/belief-graph.ts:402-432 | the count is the size of the strongly connected component among observations |
| `BeliefHistory.RunDepth` | packages/arc-agi-3/src/checkpoint.ts:881-969 | the k-th node of a run is k steps deep, so hidden state is never revisited |
| `BeliefHistory.EveryKeyIsFresh` | packages/arc-agi-3/src/checkpoint.ts:881-969 | every node and edge key a run meets is new: each node visited once, each edge tested once |
| `BeliefHistory.ValidateHistory` | packages/arc-agi-3/src/checkpoint.ts:881-969 | the method decides exactly the history conditions |
| `BeliefHistory.GenesisIsFirst` | packages/arc-agi-3/src/checkpoint.ts:903-916 | in an accepted graph only the node before the first receipt can be the genesis |
| `BeliefHistory.ChosenIsRun` | packages/arc-agi-3/src/checkpoint.ts:881-969 | replaying the observations that the accepted nodes commit to gives those nodes back |
| `BeliefHistory.HistoryIsExact` | packages/arc-agi-3/src/checkpoint.ts:881-969 | for a verified receipt chain a graph is accepted, records what its observation hashes commit to and offered the actions taken, if and only if some run over genuine observations built it, up to the order of nodes and edges |
| `BeliefHistory.RunIsHonest` | packages/arc-agi-3/src/checkpoint.ts:881-969 | the graph of every run records what its observation hashes commit to and offered the actions taken |
| `BeliefHistory.CurrentIsNotChecked` | packages/arc-agi-3/src/checkpoint.ts:918-969 | gap: once there are receipts this validator accepts the graph with any of its nodes as the current one |
| `BeliefHistory.ContentsAreNotChecked` | packages/arc-agi-3/src/checkpoint.ts:918-969 | gap: once there are receipts this validator accepts other actions at any node, and another frame at the genesis and only there |
| `BeliefHistory.ForgeryIsAccepted` | packages/arc-agi-3/src/checkpoint.ts:787-813 | with the cross-field checks such a change goes unnoticed exactly when it leaves the genesis frame, or the effect class of the first transition, as it was |
| `BeliefHistory.ForgeriesPass` | packages/arc-agi-3/src/checkpoint.ts:763-813 | so for every checkpoint of a run with a receipt: exactly which changes still pass, and that no run builds any of the changed graphs |
| `BeliefHistory.OpeningForgeries` | packages/arc-agi-3/src/checkpoint.ts:787-813 | in the smallest run the first frame may be any but the one the run went on to |
| `BeliefHistory.EffectsAgree` | packages/arc-agi-3/src/controller.ts:260-268 | on the graph of a run the checkpoint classes every transition as the controller did |
| `BeliefHistory.OpeningIsRun` | packages/arc-agi-3/src/checkpoint.ts:881-969 | a smallest run, so that the preceding rows speak of something |
| `BeliefHistory.ValidateCrossFields` | packages/arc-agi-3/src/checkpoint.ts:763-813 | the method decides exactly the history, end and episode conditions |
| `BeliefHistory.CheckpointIsExact` | packages/arc-agi-3/src/checkpoint.ts:763-813 | together with the cross-field checks the same conditions hold if and only if the checkpoint is that of a run: its graph, its episodes, its whole last observation and its current node |
| `AvoBindings.VerifyReceipts` | packages/arc-agi-3/src/avo-loop.ts:709-727 | one outcome's receipts follow its plan and continue the loop's receipts at the running index |
| `AvoBindings.VerifyBindings` | packages/arc-agi-3/src/avo-loop.ts:657-771 | the one-pass verifier accepts exactly the checkpoints in which outcomes cite the receipts after the baseline once and in order, and world-model records once |
| `AvoBindings.BadCitationIsForever` | packages/arc-agi-3/src/avo-loop.ts:657-771 | citing a receipt twice, or one before the baseline, cannot be repaired by later outcomes |
| `AvoCourse.Controller.Act` | packages/arc-agi-3/src/controller.ts:904-1085 | exactly when the call returns a receipt, when it appends one although it throws, and when it faults the controller; a known key replays |
| `AvoCourse.CompletedIsAppended` | packages/arc-agi-3/src/avo-loop.ts:397-472 | whatever happens to a plan, it comes back with exactly the receipts the controller appends if and only if no turn loses one (a failed commit, an abandoned fresh result) and none is answered from the ledger |
| `AvoCourse.SmoothCourse` | packages/arc-agi-3/src/avo-loop.ts:397-472 | a plan whose requests are fresh, current and committed, and that nothing interrupts, executes every step by one new receipt each |
| `AvoLoop.BindsIsBound` | packages/arc-agi-3/src/avo-loop.ts:657-771 | for every state a loop can be in between decisions the checkpoint binds exactly when citations are in step and no world-model record is left without an outcome |
| `AvoLoop.BoundAfter` | packages/arc-agi-3/src/avo-loop.ts:338-489 | a decision leaves a binding checkpoint exactly when its plan comes back with the receipts not cited so far followed by those it appended |
| `AvoLoop.StrayAfter` | packages/arc-agi-3/src/avo-loop.ts:338-489 | a record is left without an outcome exactly when the outcome of the decision that made it is refused |
| `AvoLoop.BadCitationDooms` | packages/arc-agi-3/src/avo-loop.ts:657-771 | an outcome that cites a receipt already cited, or one from before the baseline, rules out every later checkpoint |
| `AvoLoop.DoomedAfter` | packages/arc-agi-3/src/avo-loop.ts:657-771 | no decision undoes a bad citation, a record without outcome, or a receipt without a result |
| `AvoLoop.AtFrontAfter` | packages/arc-agi-3/src/avo-loop.ts:397-489 | a decision that cites something leaves the loop where its next citations start; a refused outcome does so only if the last receipt of its plan ends there |
| `AvoLoop.DecisionStands` | packages/arc-agi-3/src/avo-loop.ts:397-489 | so a loop stands where its next citations start as long as no outcome has been refused |
| `AvoLoop.MendedWasMendable` | packages/arc-agi-3/src/avo-loop.ts:338-489 | only a loop that stands where what is due starts, with every receipt recorded and budget left, is made to bind by a decision |
| `AvoLoop.NothingDecided` | packages/arc-agi-3/src/avo-loop.ts:338-489 | a decision that comes back with nothing and appends nothing changes nothing about the binding |
| `AvoLoop.CoversAll` | packages/arc-agi-3/src/checkpoint.ts:817-823 | as many results as receipts means every receipt has its own |
| `AvoArchive.LoadArchive` | packages/arc-agi-3/src/plan-archive.ts:793-1026 | loading accepts exactly the archives in which every plan is well formed, every candidate is offered by exactly one selection, and every selection, in order, has its one outcome |
| `AvoArchive.LoadSelections` | packages/arc-agi-3/src/plan-archive.ts:893-967 | in one pass that counts offers: selections distinct and well formed, each candidate offered exactly once |
| `AvoArchive.LoadOutcomes` | packages/arc-agi-3/src/plan-archive.ts:968-1020 | the i-th outcome is that of the i-th selection and cites nothing twice, and there is one for each |
| `AvoArchive.LoadRecords` | packages/arc-agi-3/src/world-model.ts:163-225 | the world model loads exactly when no receipt has two records |
| `AvoArchive.LoadCore` | packages/arc-agi-3/src/checkpoint.ts:817-823 | the controller's checkpoint holds numbered and chained receipts, each with its result |
| `AvoArchive.SelectionBegins` | packages/arc-agi-3/src/plan-archive.ts:637-690 | a new batch and the selection made from it keep every candidate offered by exactly one selection |
| `AvoArchive.OutcomeEnds` | packages/arc-agi-3/src/plan-archive.ts:692-731 | an outcome written for the last selection keeps the archive in order |
| `AvoArchive.LoadsUnlessLacking` | packages/arc-agi-3/src/plan-archive.ts:1001-1020 | a loop's archive loads if and only if no selection lacks its outcome |
| `AvoLoop.ArcAvoLoop.AddCandidates` | packages/arc-agi-3/src/plan-archive.ts:390-550 | a batch is added whole exactly when every draft is current, well planned and new; otherwise the archive is untouched |
| `AvoLoop.ArcAvoLoop.Select` | packages/arc-agi-3/src/plan-archive.ts:551-691 | selection succeeds exactly when some offered candidate is legal and capacity remains, and picks a legal one |
| `AvoLoop.ArcAvoLoop.Offer` | packages/arc-agi-3/src/avo-loop.ts:338-392 | a decision that selects nothing leaves the archive as it was |
| `AvoLoop.ArcAvoLoop.AppendRecord` | packages/arc-agi-3/src/world-model.ts:99-140 | one world-model record per receipt; asked again it returns the one it has |
| `AvoLoop.ArcAvoLoop.AppendOutcome` | packages/arc-agi-3/src/plan-archive.ts:692-731 | an outcome is written unless it cites something twice |
| `AvoLoop.ArcAvoLoop.Ask` | packages/arc-agi-3/src/controller.ts:530-576 | exactly which receipt a call appends, returned or not: a dispatched action whose commit fails appends one and throws |
| `AvoLoop.ArcAvoLoop.Obtain` | packages/arc-agi-3/src/controller.ts:530-576 | a step comes back with a receipt exactly when the call admits it and no supervisor case fails to open after it |
| `AvoLoop.ArcAvoLoop.Learn` | packages/arc-agi-3/src/avo-loop.ts:448-470 | rule evidence, then the world-model record: how the turn ends and which record it leaves |
| `AvoLoop.ArcAvoLoop.ExecuteStep` | packages/arc-agi-3/src/avo-loop.ts:400-471 | for every gate, rejection, replay, divergence, win and exception: what one plan step yields, how it ends, and that it yields just what was appended if and only if it neither loses nor replays a receipt |
| `AvoLoop.ArcAvoLoop.RunSteps` | packages/arc-agi-3/src/avo-loop.ts:398-472 | the steps run in order until one does not advance; receipts, books, records and observation are those of the course of the plan |
| `AvoLoop.ArcAvoLoop.ExecutePlan` | packages/arc-agi-3/src/avo-loop.ts:390-489 | whatever happens the plan gets exactly one outcome with the receipts it came back with, unless that would cite a receipt twice |
| `AvoLoop.ArcAvoLoop.StepWithCandidates` | packages/arc-agi-3/src/avo-loop.ts:338-489 | for every exit: what is added; when a binding loop goes on binding and which plans repair one that does not; what rules out every later checkpoint; where the loop stands; that only a mendable loop is mended and a stuck one stays stuck |
| `AvoLoop.ArcAvoLoop.ResumeFrom` | packages/arc-agi-3/src/avo-loop.ts:295-320 | any checkpoint whatever is taken up exactly by a loop of the same configuration and versions, when it names the observation of the controller, the controller's receipts verify and have their results, archive and world model load, and its bindings verify |
| `AvoLoop.ArcAvoLoop.TakeCheckpoint` | packages/arc-agi-3/src/avo-loop.ts:270-293 | in every state of the loop, replays and losses included, a checkpoint is emitted exactly when every receipt has its result and the bindings verify; never again once the loop is doomed |
| `AvoRuns.ReplayBreaksBinding` | packages/arc-agi-3/src/avo-loop.ts:338-489 | a run whose second draft reuses the request of a no-effect action: the checkpoint before is emitted, none is after |
| `AvoRuns.LossBreaksBinding` | packages/arc-agi-3/src/avo-loop.ts:338-489 | a run whose only action lands but fails to commit: no checkpoint is ever emitted |
| `AvoRuns.ReplayMendsBinding` | packages/arc-agi-3/src/avo-loop.ts:338-489 | a run whose first plan asks twice for one action and is refused its outcome, and whose second draft cites the receipt after all: no checkpoint before, one after, which no loop takes up |
| `AvoRuns.Mend` | packages/arc-agi-3/src/avo-loop.ts:338-489 | every mendable loop is mended by one decision, which asks again for everything due and changes nothing of the controller |
| `AvoRuns.MendInVain` | packages/arc-agi-3/src/avo-loop.ts:295-489 | mended after a refused outcome, a loop emits its checkpoint again and still cannot be resumed |
| `AvoRuns.SaveAndResume` | packages/arc-agi-3/src/avo-loop.ts:270-320 | an emitted checkpoint is taken up again if and only if no decision's outcome was ever refused, and then as the same loop, standing where its controller is |
| `AvoRuns.LeftBehind` | packages/arc-agi-3/src/avo-loop.ts:338-489 | a run whose refused outcome leaves the loop at another observation than its controller: the checkpoint is emitted and cannot be taken up |
| `AvoRuns.UndoomedButStuck` | packages/arc-agi-3/src/avo-loop.ts:338-489 | a run that is not doomed and yet will never bind again |
| `CanonicalJson.CanonicalPrintsNormal` | crates/kernel/src/session.rs:206-242 | the canonical text is the plain text of the value with its keys sorted and its integral floats made integers |
| `CanonicalText.TextIsExact` | crates/kernel/src/session.rs:226-262 | the canonical text is exactly the one described character by character: two-character escapes for quote, backslash, \b, \f, \n, \r and \t, \u00 and two lower-case hex digits for other control characters, every other character itself; integers without leading zeros; keys strictly ascending; no whitespace |
| `CanonicalText.EscapeIsShortest` | crates/kernel/src/session.rs:239-241 | no other text of the same length or shorter is read back as the same character |
| `CanonicalJson.ReadPrint` | crates/kernel/src/session.rs:206-242 | reading inverts printing, whatever delimiter follows |
| `CanonicalJson.CanonicalRoundTrip` | crates/kernel/src/session.rs:206-242 | reading canonical text gives the normal form of the value |
| `CanonicalJson.CanonicalIsUnambiguous` | crates/kernel/src/session.rs:206-242 | canonical texts are equal if and only if the values agree up to key order and integral floats |
| `CanonicalJson.KeyOrderIsIgnored` | crates/kernel/src/session.rs:206-242 | objects have one normal form exactly when they hold the same keys with the same normal values |
| `Session.ValidateLog` | crates/kernel/src/session.rs:140-199 | each fault reported is one the event has and every fault it has is reported; none exactly when every event continues its branch or opens one properly |
| `Session.PrefixIsValid` | crates/kernel/src/session.rs:140-199 | every prefix of a valid log is valid |
| `Session.BranchIsContiguous` | crates/kernel/src/session.rs:140-199 | every branch of a valid log is 0, 1, 2, ... in log order |
| `Session.BranchUpTo` | crates/kernel/src/session.rs:243-272 | the events of a branch up to an index, that one included, are its first ones |
| `Session.ForkPrecedes` | crates/kernel/src/session.rs:172-197 | a branch other than the root forks from an event before it |
| `Session.GuardNeverCuts` | crates/kernel/src/session.rs:248-272 | parents come strictly earlier, so the visited guard never cuts a lineage short |
| `Session.LineageIsIsolated` | crates/kernel/src/session.rs:248-283 | appending to one branch changes no other lineage, not even one that forks from that branch |
| `Session.Fork` | crates/kernel/src/session.rs:322-351 | a fork succeeds exactly at an existing event under an unused name |
| `Session.ForkExtends` | crates/kernel/src/session.rs:322-351 | a fork keeps the log valid, and its lineage is the parent's through the fork index and then the fork event |
| `Session.StateHash` | crates/kernel/src/session.rs:287-299 | the digests are chained over the texts of the lineage's events, each described character by character; any log has a hash, a valid one that of its lineage, an unknown branch the empty string |
| `Session.EventTextIsExact` | crates/kernel/src/session.rs:287-299 | what is hashed of an event is the text of its fields branch, index, kind, parent (if any) and payload, in that order and under those names |
| `Session.ChainDetermines` | crates/kernel/src/session.rs:287-299 | one chained hash means one list of texts, if the digest tells apart the texts actually digested |
| `Session.EventIsDetermined` | crates/kernel/src/session.rs:206-242 | the canonical text of an event determines the event |
| `Session.StateHashDetermines` | crates/kernel/src/session.rs:287-299 | two lineages have one state hash if and only if they have the same canonical events in the same order |
| `Session.Replay` | crates/kernel/src/session.rs:303-318 | replay answers exactly for known branches of valid logs, with the length and hash of the lineage |
| `Supervisor.Sweep` | packages/arc-agi-3/src/checkpoint.ts:687-718 | the one-pass cursor sweep accepts exactly when every receipt obeys: it names the latest directive committed before it, while that is a STOP or unexpired, and then its mode is no STOP, its budget not used up, its edge not prohibited, and under RESET the action a reset; otherwise it names none |
| `Supervisor.AcceptedIsConsistent` | packages/arc-agi-3/src/checkpoint.ts:476-739 | what the validator accepts is, within the limits on records, what every step of a run keeps |
| `Supervisor.WindowIsBlock` | packages/arc-agi-3/src/checkpoint.ts:687-718 | the receipts naming a directive are one block right after its commit, no longer than its expiry, cut by the next commit |
| `Supervisor.StopAdmitsNothing` | packages/arc-agi-3/src/checkpoint.ts:687-738 | a STOP admits no receipt until it is superseded |
| `Supervisor.CasesAndDirectivesMatch` | packages/arc-agi-3/src/checkpoint.ts:550-685 | resolved cases and directives correspond one to one and at most one case is open |
| `Supervisor.StopTestIsRedundant` | packages/arc-agi-3/src/checkpoint.ts:736-738 | the closing test on a STOP can never fail once the sweep has passed |
| `Supervisor.ValidateCases` | packages/arc-agi-3/src/checkpoint.ts:488-552 | case ids unique, openings in range, at most one case open |
| `Supervisor.ValidateDirectives` | packages/arc-agi-3/src/checkpoint.ts:554-678 | each directive is legal, in commit order, and alone on its resolved case |
| `Supervisor.Validate` | packages/arc-agi-3/src/checkpoint.ts:476-739 | the validator accepts exactly the histories whose cases and directives are in order, whose every receipt obeys the directive in force in that sense, and whose active directive is the one in force |
| `Supervisor.ActKeepsConsistent` | packages/arc-agi-3/src/controller.ts:904-1085 | an action that obeys the directive in force keeps the history consistent |
| `Supervisor.CommitOutcome` | packages/arc-agi-3/src/controller.ts:1294-1298 | the history after a directive is written is consistent unless writing it added a record of a case already on record |
| `Supervisor.TwiceStays` | packages/arc-agi-3/src/controller.ts:1294-1298 | two records of one case stay, since records are only added and keep their ids |
| `Supervisor.TwiceIsRefused` | packages/arc-agi-3/src/checkpoint.ts:488-552 | the validator refuses every history with two records of one case |
| `Supervisor.Run.ActiveDirective` | packages/arc-agi-3/src/controller.ts:1138-1150 | the directive in force; a lapsed one is forgotten and, when supervision blocks, asks for renewal |
| `Supervisor.Run.OpenCase` | packages/arc-agi-3/src/controller.ts:1350-1357 | a case is opened unless one is open or it is on record |
| `Supervisor.Run.OpenSupervisorCase` | packages/arc-agi-3/src/controller.ts:590-606 | the boss gets the open case, or the one detected unless it is on record; a run that has won or faulted refuses |
| `Supervisor.Run.Decide` | packages/arc-agi-3/src/controller.ts:1223-1288 | exactly which directives are accepted, before their intent is logged; a known commit is answered with its directive, and a run that has won or faulted takes no other |
| `Supervisor.Run.WriteDirective` | packages/arc-agi-3/src/controller.ts:1288-1311 | the directive comes into force and the first case of its id is resolved; some case is on record twice afterwards if and only if one was before, or the case was to be put on record and is there already |
| `Supervisor.Run.Gate` | packages/arc-agi-3/src/controller.ts:934-937 | an action passes exactly when supervision allows one and it obeys the directive in force: named, no STOP, within budget, edge not prohibited, a reset under RESET |
| `Supervisor.Run.Intend` | packages/arc-agi-3/src/controller.ts:904-944 | an action takes the lock exactly when it passes the gate and the run has neither won nor faulted |
| `Supervisor.Run.Dispatch` | packages/arc-agi-3/src/controller.ts:938-951 | after its intent is logged the gate is passed again, so that an action never crosses a case opened meanwhile |
| `Supervisor.Run.Land` | packages/arc-agi-3/src/controller.ts:953-1053 | the receipt of the dispatched action is appended, or the run is faulted |
| `Supervisor.Run.Settle` | packages/arc-agi-3/src/controller.ts:1054-1085 | once the receipt is logged its result is recorded and a case detected on it is opened; a log that fails faults the run |
| `Supervisor.Run.Checkpoint` | packages/arc-agi-3/src/controller.ts:640-701 | supervisor state and coverage of the checkpoint of every run of bounded length, taken at any time, pass if and only if no case is on record twice and every receipt has its result |
| `Supervisor.DecidedTwice` | packages/arc-agi-3/src/controller.ts:1223-1311 | a run that decides, detects again and decides again one case: the checkpoint between is accepted, none is after |
| `Supervisor.OpenedMeanwhile` | packages/arc-agi-3/src/controller.ts:590-606 | a run in which the boss opens a case while the directive on it is being logged: no checkpoint is accepted after |
| `OfficialFactory.Factory.FinishCurrent` | packages/arc-agi-3-chatgpt/src/official-factory.ts:816-834 | exactly when the current episode may be left, and whether its assignment is handed out again |
| `OfficialFactory.Factory.BeginCall` | packages/arc-agi-3-chatgpt/src/official-factory.ts:836-855 | the call up to its first await, admitted exactly by lifecycle, binding, principal and queue |
| `OfficialFactory.Factory.CloseDone` | packages/arc-agi-3-chatgpt/src/official-factory.ts:830-853 | the call goes on exactly when the controller closes and an assignment is left; one that refuses to close keeps its episode current |
| `OfficialFactory.Factory.LogDone` | packages/arc-agi-3-chatgpt/src/official-factory.ts:855-867 | the episode takes the next assignment and becomes current |
| `OfficialFactory.Factory.StartDone` | packages/arc-agi-3-chatgpt/src/official-factory.ts:868-904 | an assignment is used up only when its controller exists |
| `OfficialFactory.Factory.Release` | packages/arc-agi-3-chatgpt/src/official-factory.ts:949-967 | an episode nobody saw is given back with its assignment |
| `OfficialFactory.Factory.ApproveAdvance` | packages/arc-agi-3-chatgpt/src/official-factory.ts:969-976 | only the running current episode can be advanced |
| `OfficialFactory.Factory.ApproveRetry` | packages/arc-agi-3-chatgpt/src/official-factory.ts:978-985 | only a failed current episode can be retried |
| `OfficialFactory.Factory.FinalCloseDone` | packages/arc-agi-3-chatgpt/src/official-factory.ts:997-1029 | closing finalizes every episode whose controller closes |
| `OfficialFactory.ScorecardRuns` | packages/arc-agi-3-chatgpt/src/official-factory.ts:459-505 | the well-formed runs in order, the raw count, and whether anything was malformed or empty |
| `OfficialFactory.OneRunEach` | packages/arc-agi-3-chatgpt/src/official-factory.ts:1183-1190 | as many runs as non-empty environments means exactly one run in each |
| `OfficialFactory.CoverIsBijection` | packages/arc-agi-3-chatgpt/src/official-factory.ts:1183-1190 | enough episodes to cover the queue and no more: each assignment has exactly one |
| `OfficialFactory.GuidsAreBijective` | packages/arc-agi-3-chatgpt/src/official-factory.ts:1077-1083 | distinct guids, each found among as many official runs, pair episodes and official runs one to one |
| `OfficialFactory.MatchesAreThose` | packages/arc-agi-3-chatgpt/src/official-factory.ts:1077-1083 | the official runs matched to a guid are those carrying it, each as often as listed |
| `OfficialFactory.FinalizeEvidence` | packages/arc-agi-3-chatgpt/src/official-factory.ts:1031-1226 | evidence is accepted if and only if assignments, episodes, official runs and environments correspond one to one, every episode reconciles, and the totals are right |
| `OfficialFactory.UnspoiledIsOneToOne` | packages/arc-agi-3-chatgpt/src/official-factory.ts:816-985 | in every state of a run: no episode failed to start and none was released if and only if episodes with controllers and assignments handed out correspond one to one |
| `OfficialFactory.CompleteQueue` | packages/arc-agi-3-chatgpt/src/official-factory.ts:1183-1190 | when every assignment has been handed out, acceptance has one episode for each if and only if none ever failed to start or was released |
| `OfficialFactory.SpoiledRulesOutAcceptance` | packages/arc-agi-3-chatgpt/src/official-factory.ts:1043-1190 | once an episode failed to start or was released, evidence is rejected in every later state |
| `OfficialFactory.RetriedRun` | packages/arc-agi-3-chatgpt/src/official-factory.ts:816-1226 | a run that fails, is approved for retry, succeeds and closes in good order: its evidence is rejected whatever scorecard and judgement say |
| `PromiseLocks.Locks.MutualExclusion` | packages/arc-agi-3-chatgpt/src/store.ts:251-268 | bodies of one key never overlap |
| `PromiseLocks.Locks.FirstComeFirstServed` | packages/arc-agi-3-chatgpt/src/store.ts:251-268 | bodies of one key run in arrival order |
| `PromiseLocks.Locks.IdleMeansNoEntry` | packages/arc-agi-3-chatgpt/src/store.ts:251-268 | a key has an entry in the lock table exactly while some call on it has not released |
| `PromiseLocks.Locks.FirstMayEnter` | packages/arc-agi-3-chatgpt/src/store.ts:251-268 | the lock cannot get stuck: the first unreleased call of a key is inside or may enter |
| `PromiseLocks.Locks.ArriveIsValid` | packages/arc-agi-3-chatgpt/src/store.ts:251-268 | arriving keeps the lock table consistent |
| `PromiseLocks.Locks.EnterIsValid` | packages/arc-agi-3-chatgpt/src/store.ts:251-268 | entering after the awaited tail keeps it consistent |
| `PromiseLocks.Locks.LeaveIsValid` | packages/arc-agi-3-chatgpt/src/store.ts:251-268 | releasing, and deleting the entry only as the last call, keeps it consistent |
| `EpisodeStore.Ledger.RunIdempotent` | packages/arc-agi-3-chatgpt/src/store.ts:270-311 | exactly which calls are admitted; a call joins the body its key leads to or starts one |
| `EpisodeStore.Ledger.Report` | packages/arc-agi-3-chatgpt/src/store.ts:305-310 | only a retryable failure frees the key for another attempt |
| `EpisodeStore.Ledger.Settle` | packages/arc-agi-3-chatgpt/src/store.ts:298-306 | a body settles once |
| `EpisodeStore.Ledger.Forget` | packages/arc-agi-3-chatgpt/src/store.ts:299-303 | a settled body stops counting as active |
| `EpisodeStore.Ledger.Clear` | packages/arc-agi-3-chatgpt/src/store.ts:1313-1316 | the ledgers go only after draining |
| `EpisodeStore.Ledger.Drain` | packages/arc-agi-3-chatgpt/src/store.ts:1269-1278 | closing proceeds to the controllers only when no admitted body is active |
| `EpisodeStore.Ledger.BodiesNeverOverlap` | packages/arc-agi-3-chatgpt/src/store.ts:270-311 | bodies of one (principal, tool, key) never overlap |
| `EpisodeStore.Ledger.OneSuccess` | packages/arc-agi-3-chatgpt/src/store.ts:270-311 | at most one body of a key ever succeeds, so every successful caller receives its value |
| `EpisodeStore.Ledger.Final` | packages/arc-agi-3-chatgpt/src/store.ts:270-311 | after a success or a non-retryable failure the key is never run again |
| `EpisodeStore.Ledger.ControllersCloseLast` | packages/arc-agi-3-chatgpt/src/store.ts:1269-1316 | while controllers are closed no admitted body is running |
| `EpisodeStore.Episodes.Create` | packages/arc-agi-3-chatgpt/src/store.ts:313-316 | a create queues on the principal's lock unless the store is closing |
| `EpisodeStore.Episodes.Resume` | packages/arc-agi-3-chatgpt/src/store.ts:920-939 | a resume queues on the episode's lock unless the store is closing |
| `EpisodeStore.Episodes.EnterResume` | packages/arc-agi-3-chatgpt/src/store.ts:939-991 | a live matching episode is returned, a live stale one replaced, a missing one waits for the create lock |
| `EpisodeStore.Episodes.EnterCreate` | packages/arc-agi-3-chatgpt/src/store.ts:315-320 | the capacity test, made under the lock, decides whether a controller is built |
| `EpisodeStore.Episodes.FinishReplace` | packages/arc-agi-3-chatgpt/src/store.ts:953-989 | a replacement is installed once in place of the controller it replaces; every other entry stays |
| `EpisodeStore.Episodes.FinishBuild` | packages/arc-agi-3-chatgpt/src/store.ts:330-379 | a built episode takes the room its capacity test found and nothing else changes; nobody ever holds more than the limit |
| `EpisodeStore.Episodes.OneBuilder` | packages/arc-agi-3-chatgpt/src/store.ts:313-381 | two calls of one principal are never both between the capacity test and the installation |
| `EpisodeStore.Episodes.OneResumer` | packages/arc-agi-3-chatgpt/src/store.ts:938-1038 | two resumes of one episode never overlap |
| `EpisodeStore.Episodes.DrainedMeansDone` | packages/arc-agi-3-chatgpt/src/store.ts:1269-1275 | once the tails that closing waits for have resolved, no create or resume is under way |
| `EpisodeStore.NothingUnderWay` | packages/arc-agi-3-chatgpt/src/store.ts:1269-1278 | closing reaches the controllers with no create, no resume and no idempotent body under way |
| `Compaction.AddFrame` | packages/arc-agi-3/src/checkpoint.ts:971-982 | a frame is filed once under its hash |
| `Compaction.Compact` | packages/arc-agi-3/src/checkpoint.ts:998-1025 | receipts and results with frames replaced by hashes, and every frame stored exactly once |
| `Compaction.ReceiptsReferenceAll` | packages/arc-agi-3/src/checkpoint.ts:998-1025 | when results show their receipts' frames, the blobs are exactly those the receipts reference |
| `Compaction.FrameMap` | packages/arc-agi-3/src/checkpoint.ts:1027-1047 | the blob table is rebuilt exactly when hashes are right and distinct |
| `Compaction.HydrateReceipts` | packages/arc-agi-3/src/checkpoint.ts:1049-1071 | hydration returns receipts exactly when every blob is present and the receipt chain verifies |
| `Compaction.HydrateIdempotency` | packages/arc-agi-3/src/checkpoint.ts:1096-1115 | hydration returns results exactly when receipts and blobs are present and the last frame is the current one |
| `Compaction.ReceiptRoundTrip` | packages/arc-agi-3/src/checkpoint.ts:998-1071 | receipts survive compaction unchanged |
| `Compaction.StoredRoundTrip` | packages/arc-agi-3/src/checkpoint.ts:998-1115 | a result comes back unchanged if and only if it is not a replay, cites its listed receipt and ends on its current frame |
| `Compaction.RoundTrip` | packages/arc-agi-3/src/checkpoint.ts:998-1115 | compacting and hydrating a whole run gives it back under exactly those conditions |
| `Stats.MasksAreFlips` | packages/arc-agi-3-bench/src/stats.ts:136-149 | up to 32 values the masks run through every choice of signs exactly once |
| `Stats.EachFlipOnce` | packages/arc-agi-3-bench/src/stats.ts:136-149 | each choice of signs is met once if and only if there are at most 32 values |
| `Stats.WideCount` | packages/arc-agi-3-bench/src/stats.ts:136-149 | beyond 32 values only the flips with every later value negative are counted, each many times |
| `Stats.ThirtyThreeOnes` | packages/arc-agi-3-bench/src/stats.ts:136-149 | with 33 equal positive values not even the observed signs are counted |
| `Stats.SignFlipExact` | packages/arc-agi-3-bench/src/stats.ts:136-149 | the exact p-value is the share of sign choices that do as well as the observation, between 2^-n and 1 |
| `Stats.SignFlipSampled` | packages/arc-agi-3-bench/src/stats.ts:151-161 | the sampled p-value is the share of resamples that do as well, counting the observation itself |
| `Stats.SignFlipPValue` | packages/arc-agi-3-bench/src/stats.ts:123-162 | errors exactly for no cluster, no resample, or too many resamples in the sampled branch; otherwise the exact or the sampled value, as the budget decides |
| `Stats.QuantileMonotone` | packages/arc-agi-3-bench/src/stats.ts:31-39 | quantiles are monotone in the probability and stay between the extremes |
| `Stats.QuantileIs` | packages/arc-agi-3-bench/src/stats.ts:31-39 | a quantile lies on the straight line between the order statistics on both sides of place (n - 1) times the probability |
| `Stats.IntervalBetween` | packages/arc-agi-3-bench/src/stats.ts:95-121 | bounds on the cluster values bound the interval |
| `Stats.ClusteredBootstrapInterval` | packages/arc-agi-3-bench/src/stats.ts:95-121 | errors exactly for bad options, unsafe resample counts included; otherwise the two quantiles of the resampled means, each on the line between the order statistics around its place, ordered and within the cluster values |
| `Stats.ShuffledPermutes` | packages/arc-agi-3-bench/src/stats.ts:186-194 | whatever the draws, the shuffle is a permutation |
| `Stats.ShuffleIsInjective` | packages/arc-agi-3-bench/src/stats.ts:186-194 | different swap targets give different orders of distinct items |
| `Stats.ShuffleReachesAll` | packages/arc-agi-3-bench/src/stats.ts:186-194 | every order comes from some swap targets |
| `Stats.ShuffledArms` | packages/arc-agi-3-bench/src/stats.ts:186-194 | the in-place loop computes the shuffle of the targets drawn from the stream |

## Left out

- Floating point, `powf`, infinities and NaN: reals throughout; the exponents behind the DCFR factors are parameters.
- SHA-256, FNV receipts, Ed25519 and `hashArcValue`: free terms or an abstract digest.
- The random generators' own recurrences (`mulberry32`, the poker `Rng`): arbitrary streams.
- Session.ValidateLog: each violation is named and placed; the wording of its message is not modelled.
- `parse_log` and `serialize_event` of `session.rs`: the wire text of events, with line numbers and blank lines, is not modelled.
- Session.Fork: indices are unbounded naturals, so the overflow of `u64` is not modelled.
- CanonicalJson.CanonicalRoundTrip: strings are sequences of Unicode characters, whose order is the byte order of UTF-8; the TypeScript mirror (`packages/kernel-js/src/session.ts`), which is to print the same text, is not modelled.
- Cfr.Solver.Train: for floored regrets bounds on both sides are stated, not their exact value, and discounted regrets have their potential bound, signs and exact per-iteration increments, not a closed form; convergence is not proved for DCFR, momentum or pruned runs.
- Rate.SolveWithin: the number of iterations is a bound that suffices, not the least one, and for CFR+ six times that of the other variants because of flooring at every history; momentum, pruning and DCFR are outside it.
- Cfr.Solver.AverageStrategy: the order in which the hash map lists information sets is arbitrary.
- Exploit.Responder.Order: ties between equally deep information sets are broken arbitrarily; the result does not depend on them.
- `tree_stats` of `game.rs` counts nodes, information sets and depth for display, and `SolveStats::prune_rate` is the quotient of two counters that `Cfr.Solver.CfrRec` specifies; nothing else depends on either.
- Darwin.Search.Evolve: the rendered champion label, the mean exploitability per generation and the report's receipt are not modelled; gene ranges under mutation are not modelled.
- Evidence lists, metrics, hypotheses and advice texts of supervisor cases and directives: bounded-text and citation checks that concern one record at a time.
- Supervisor.Run.Gate: legality of the action in the environment's state and the wall-clock and action budgets are one parameter; the idempotency ledger is modelled in `AvoCourse.Controller` instead.
- Supervisor.Run.Checkpoint: a closed controller is not modelled; the other parts of the checkpoint are the subject of `BeliefHistory`, `Compaction` and `AvoLoop`.
- Supervisor.Run.Decide: `supervise`, which opens the detected case first and then decides it with a default directive, is the same two steps and is not a member of its own.
- AvoCourse.Controller.Act: the bound on the number of ledger entries and the supervisor gate are part of the refusal event.
- AvoLoop.ArcAvoLoop.Obtain: why a supervisor case cannot be opened is left open; the causes in the code (a closed controller, raw game identity in the case) also keep the controller from being checkpointed later, so that a receipt lost this way stays lost there.
- AvoLoop.ArcAvoLoop.ResumeFrom: hashes, key sets and size limits of the checkpoint, the depth and parent of a candidate, the codes and scores of a selection and the environment adapter's resume are taken to be in order; the core checkpoint is represented by the controller's books.
- AvoLoop.ArcAvoLoop.TakeCheckpoint: of the controller's own checkpoint only the coverage by results is represented; it is also refused when a supervisor case is on record twice (`Supervisor.Run.Checkpoint`), when the environment's checkpoint fails, or when another part of it does not verify.
- AvoRuns.Mend: in a world that refuses nothing; the legality of the first action and the directive in force are up to the world of the decision.
- AvoLoop.Stuck: a condition that rules out every later checkpoint without dooming the loop, not the only one; which refused outcomes could steer an undoomed loop back to where it can be mended depends on the environment.
- AvoLoop.ArcAvoLoop.Select: scores, frontier and rule evidence decide which legal candidate is picked; here any legal one may be.
- AvoLoop.ArcAvoLoop.AppendOutcome: the capacity reservation made at selection is one parameter of the selection step.
- The loop's own promise tail and the factory lock follow the pattern of `PromiseLocks` and are not repeated.
- OfficialFactory.FinalizeEvidence: journal, anchor, reconciliation and attestation of one episode are one judgement per episode; score, mode, game and level totals are one flag.
- OfficialFactory.Factory.Release: the check of the caller's principal is left out, since one principal is bound for the whole run.
- EpisodeStore.Ledger.RunIdempotent: the scoped key joins tool and key with a NUL character; here the pair itself is the key.
- EpisodeStore.NothingUnderWay: the ledger of idempotent bodies and the episodes are two objects with a closing flag each, and the checkpoint locks that closing also waits for are not modelled.
- EpisodeStore.Episodes.FinishReplace: the list of retired controllers whose closing failed is not modelled.
- Checkpoint, directive and content-addressed files of `store.ts`, MCP registration, OAuth, HTTP, the Python bridge and the web interface: input and output only.
- Termination of queues under unfair scheduling: `PromiseLocks.Locks.FirstMayEnter` rules out deadlock, not starvation by a body that never settles.
