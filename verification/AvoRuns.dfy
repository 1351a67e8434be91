// Runs of the AVO loop (packages/arc-agi-3/src/avo-loop.ts) whose checkpoints stop binding, bind again, or never
// will; and how a loop that can be mended is mended.
module AvoRuns {
  import opened AvoArchive
  import opened AvoBindings
  import opened AvoCourse
  import opened AvoLoop
  import opened Collections
  import opened Wrappers

  // ---------------------------------------------------------------- one decision nothing stands in the way of

  /** A world in which every draft is good. */
  function Facing(turns: nat -> Turn): World {
    World(_ => None, _ => 0, _ => true, _ => 0, false, turns)
  }

  /** Every turn goes the same way. */
  function Always(t: Turn): nat -> Turn {
    _ => t
  }

  /** An action that leads to an observation. */
  function Acting(post: Hash, commits: bool): Turn {
    Turn(None, None, Lands(post, 0.0, commits), false, false, false, None, None)
  }

  /** A draft under such a world is the decision's plan. */
  lemma OnlyDraft(d: Draft, turns: nat -> Turn, observation: Hash, a: Archive, features: Features)
    requires Candidate(d, 0) !in a.candidates && d.base == observation && WellPlanned(d, features)
    ensures var w := Facing(turns);
            && Addable([d], w, a, observation, features) && Candidates([d], w) == [Candidate(d, 0)]
            && Eligible([Candidate(d, 0)], w) == [Candidate(d, 0)]
            && Picked([Candidate(d, 0)], w, observation).selected == Candidate(d, 0)
  {
    var w := Facing(turns);
    assert Candidates([d], w) == [Candidate(d, 0)];
    assert Eligible([Candidate(d, 0)], w) == [Candidate(d, 0)] + Eligible([], w);
  }

  lemma Decidable(loop: ArcAvoLoop, d: Draft, turns: nat -> Turn) returns (s: Selection)
    requires WellPlanned(d, loop.features) && d.base == loop.observation && turns(0).gate.None?
    requires |loop.archive.outcomes| < loop.features.maxActions && Candidate(d, 0) !in loop.archive.candidates
    ensures loop.Opens([d], Facing(turns)) && Candidates([d], Facing(turns)) == [Candidate(d, 0)]
    ensures Eligible(Candidates([d], Facing(turns)), Facing(turns)) != [] && s == loop.ChosenBy([d], Facing(turns))
    ensures loop.CourseOf(s, Facing(turns))
            == CourseFor(d, turns, loop.features, loop.Recorded(), loop.controller.Now())
  {
    OnlyDraft(d, turns, loop.observation, loop.archive, loop.features);
    s := loop.ChosenBy([d], Facing(turns));
  }

  /** The course of a draft's plan. */
  ghost function CourseFor(d: Draft, turns: nat -> Turn, features: Features, recorded: set<Receipt>, b: Books): Course {
    Fly(d.steps, Facing(turns), features, recorded, [], b)
  }

  method DecideOn(loop: ArcAvoLoop, d: Draft, turns: nat -> Turn) returns (ghost c: Course)
    requires loop.Inv() && WellPlanned(d, loop.features) && d.base == loop.observation && turns(0).gate.None?
    requires |loop.archive.outcomes| < loop.features.maxActions && Candidate(d, 0) !in loop.archive.candidates
    modifies loop, loop.controller
    ensures loop.Inv() && c == old(CourseFor(d, turns, loop.features, loop.Recorded(), loop.controller.Now()))
    ensures loop.controller.Now() == c.books && loop.observation == Observed(old(loop.observation), c.completed)
    ensures loop.archive.candidates == old(loop.archive).candidates + [Candidate(d, 0)]
    ensures Accounts(old(loop.Snapshot()), old(loop.controller.Now()), old(loop.observation), loop.Snapshot(),
              loop.observation, c,
                     loop.features)
    ensures Cited(loop.archive.outcomes) == old(Cited(loop.archive.outcomes)) + if Distinct(c.completed)
            then c.completed else []
    ensures |loop.archive.outcomes| == |old(loop.archive).outcomes| + if Distinct(c.completed) then 1 else 0
    ensures Distinct(c.completed) || !loop.features.retrodictive ==>
            (Stray(loop.Snapshot()) <==> old(Stray(loop.Snapshot())))
    ensures old(loop.Stands()) ==> loop.Stands()
    ensures Lacking(loop.archive) <==> old(Lacking(loop.archive)) || !Distinct(c.completed)
  {
    ghost var s := Decidable(loop, d, turns);
    c := CourseFor(d, turns, loop.features, loop.Recorded(), loop.controller.Now());
    ghost var before := loop.Snapshot();
    assert Shaped(before, loop.features.retrodictive);
    StandsIs(loop);
    hide *;
    var r := loop.StepWithCandidates([d], Facing(turns));
    InvIsShaped(loop);
    DecidedOnce(before, loop.Snapshot(), loop.features.retrodictive, s, c.completed);
    AccountsParts(before, old(loop.controller.Now()), old(loop.observation), loop, c);
    StandsIs(loop);
    assert |[d]| == 1;
  }

  lemma StandsIs(loop: ArcAvoLoop)
    ensures loop.Stands() <==> Standing(loop.Snapshot(), loop.observation, loop.controller.Now().observation)
    ensures Lacking(loop.archive) <==> Lacking(loop.Snapshot().archive)
  {
  }

  lemma AccountsParts(before: Checkpoint, b: Books, stood: Hash, loop: ArcAvoLoop, c: Course)
    requires Accounts(before, b, stood, loop.Snapshot(), loop.observation, c, loop.features)
             && loop.controller.Now() == c.books
    ensures Standing(before, stood, b.observation) ==>
            Standing(loop.Snapshot(), loop.observation, loop.controller.Now().observation)
    ensures Lacking(loop.Snapshot().archive) <==> Lacking(before.archive) || !Distinct(c.completed)
  {
    hide Cited, Stray, Bound, Doomed, Mendable, Stuck, AtFront, Front, Uncited, InOrder, Distinct, Standing, Spent;
  }

  lemma InvIsShaped(loop: ArcAvoLoop)
    requires loop.Inv()
    ensures Shaped(loop.Snapshot(), loop.features.retrodictive)
  {
  }

  lemma DecidedOnce(before: Checkpoint, after: Checkpoint, retrodictive: bool, s: Selection, completed: seq<Receipt>)
    requires Shaped(before, retrodictive) && Shaped(after, retrodictive) && Decided(before, after, s, completed)
    ensures Cited(after.archive.outcomes) == Cited(before.archive.outcomes) + if Distinct(completed) then completed
            else []
    ensures |after.archive.outcomes| == |before.archive.outcomes| + if Distinct(completed) then 1 else 0
    ensures Distinct(completed) || !retrodictive ==> (Stray(after) <==> Stray(before))
  {
    StrayAfter(before, after, retrodictive, s, completed);
    DecidedCites(before, after, s, completed);
    hide Cited, Distinct, Stray;
  }

  // ---------------------------------------------------------------- courses, turn by turn

  lemma FlyOn(steps: seq<PlanStep>, w: World, features: Features, recorded: set<Receipt>, completed: seq<Receipt>,
      b: Books)
    requires |completed| < StepCount(steps, features)
    ensures var one := TurnOf(steps[|completed|], w.turn(|completed|), features, recorded, completed, b);
            var all := Fly(steps, w, features, recorded, completed, b);
            && (!one.advances ==> all == one)
            && (one.advances ==>
                  && |one.completed| == |completed| + 1
                  && var rest := Fly(steps, w, features, one.recorded, one.completed, one.books);
                     all.completed == rest.completed && all.books == rest.books)
  {
    hide TurnOf;
    TurnLength(steps[|completed|], w.turn(|completed|), features, recorded, completed, b);
  }

  lemma TurnLength(step: PlanStep, t: Turn, features: Features, recorded: set<Receipt>, completed: seq<Receipt>,
      b: Books)
    ensures var c := TurnOf(step, t, features, recorded, completed, b); c.advances ==> |c.completed| == |completed| + 1
  {
    hide Withheld, Abandons, Verdict, Notes, Books.After, Books.Answer, Books.Admits;
  }

  lemma FlyDone(steps: seq<PlanStep>, w: World, features: Features, recorded: set<Receipt>, completed: seq<Receipt>,
      b: Books)
    requires |completed| == StepCount(steps, features)
    ensures var all := Fly(steps, w, features, recorded, completed, b); all.completed == completed && all.books == b
  {
  }

  function ReceiptOf(step: PlanStep, post: Hash, n: nat): Receipt {
    Receipt(n, Request(step.expected, step.key, step.action, step.expectation, None), post, 0.0)
  }

  /** A fresh and current request acts. */
  lemma ActsFresh(step: PlanStep, post: Hash, features: Features, recorded: set<Receipt>, completed: seq<Receipt>,
      b: Books)
    requires !b.faulted && step.key !in b.ledger && step.expected == b.observation && step.directive.None?
    requires step.post.None? || step.post.value == post
    ensures var c, r := TurnOf(step, Acting(post, true), features, recorded, completed, b),
            ReceiptOf(step, post, |b.receipts|);
            && c.completed == completed + [r] && c.advances
            && c.books == Books(b.receipts + [r], b.ledger[step.key := r], post, false)
  {
    var t, r := Acting(post, true), ReceiptOf(step, post, |b.receipts|);
    var q := RequestOf(step, t);
    assert b.Admits(q, t.event) && b.Answer(q, t.event) == r && !Withheld(step, t, completed == []);
    assert !Abandons(step, t, features, r);
    assert Verdict(step, t, features, r, recorded, completed + [r]).Advance?;
  }

  /** A known request is answered with its receipt, whatever the environment would do. */
  lemma ActsAgain(step: PlanStep, t: Turn, features: Features, recorded: set<Receipt>, completed: seq<Receipt>,
      b: Books)
    requires step.key in b.ledger && b.ledger[step.key].request == RequestOf(step, t) && step.directive.None?
    requires t.gate.None? && !Misses(step, t, b.ledger[step.key]) && !t.wins && t.rules.None? && t.rejectsRecord.None?
    ensures var c := TurnOf(step, t, features, recorded, completed, b);
            c.completed == completed + [b.ledger[step.key]] && c.advances && c.books == b
  {
    var q := RequestOf(step, t);
    assert b.Admits(q, t.event) && b.Answer(q, t.event) == b.ledger[step.key] && b.After(q, t.event) == b;
    assert !Withheld(step, t, completed == []);
    assert !Abandons(step, t, features, b.ledger[step.key]);
    assert Verdict(step, t, features, b.ledger[step.key], recorded, completed + [b.ledger[step.key]]).Advance?;
  }

  /** A plan goes on after a known request. */
  lemma FlyAgain(steps: seq<PlanStep>, w: World, features: Features, recorded: set<Receipt>, completed: seq<Receipt>,
      b: Books)
    returns (later: set<Receipt>)
    requires |completed| < StepCount(steps, features)
    requires var step, t := steps[|completed|], w.turn(|completed|);
             && step.key in b.ledger && b.ledger[step.key].request == RequestOf(step, t) && step.directive.None?
             && t.gate.None? && !Misses(step, t, b.ledger[step.key]) && !t.wins && t.rules.None?
                 && t.rejectsRecord.None?
    ensures var more := completed + [b.ledger[steps[|completed|].key]];
            var all, rest := Fly(steps, w, features, recorded, completed, b), Fly(steps, w, features, later, more, b);
            all.completed == rest.completed && all.books == rest.books
  {
    hide TurnOf, Fly, Misses;
    FlyOn(steps, w, features, recorded, completed, b);
    ActsAgain(steps[|completed|], w.turn(|completed|), features, recorded, completed, b);
    later := TurnOf(steps[|completed|], w.turn(|completed|), features, recorded, completed, b).recorded;
  }

  /** A plan goes on after a fresh and current request. */
  lemma FlyFresh(steps: seq<PlanStep>, w: World, features: Features, recorded: set<Receipt>, completed: seq<Receipt>,
      b: Books, post: Hash)
    returns (later: set<Receipt>)
    requires |completed| < StepCount(steps, features) && w.turn(|completed|) == Acting(post, true)
    requires var step := steps[|completed|];
             && !b.faulted && step.key !in b.ledger && step.expected == b.observation && step.directive.None?
             && (step.post.None? || step.post.value == post)
    ensures var step := steps[|completed|];
            var r := ReceiptOf(step, post, |b.receipts|);
            var all := Fly(steps, w, features, recorded, completed, b);
            var rest := Fly(steps, w, features, later, completed + [r],
                  Books(b.receipts + [r], b.ledger[step.key := r], post, false));
            all.completed == rest.completed && all.books == rest.books
  {
    hide TurnOf, Fly;
    FlyOn(steps, w, features, recorded, completed, b);
    ActsFresh(steps[|completed|], post, features, recorded, completed, b);
    later := TurnOf(steps[|completed|], w.turn(|completed|), features, recorded, completed, b).recorded;
  }

  // ---------------------------------------------------------------- what is saved, and what is taken up again

  lemma BoundStandsAtController(cp: Checkpoint, observation: Hash, current: Hash)
    requires Bound(cp)
    ensures AtFront(cp, observation, current) <==> observation == current
    ensures Standing(cp, observation, current) && !Lacking(cp.archive) ==> observation == current
  {
    hide Cited, Stray;
    BoundIsCaughtUp(cp);
  }

  /**
   * A checkpoint that was emitted is taken up again if and only if no decision's outcome was ever refused. As long as
   * that holds the loop stands where its controller is; and what loads again is the same loop.
   */
  method SaveAndResume(loop: ArcAvoLoop) returns (saved: Option<Saved>, resumed: Option<ArcAvoLoop>)
    requires loop.Inv() && loop.Stands()
    ensures saved.Some? <==> Bound(loop.Snapshot()) && !Uncovered(loop.Snapshot(), loop.controller.ledger)
    ensures resumed.Some? <==> saved.Some? && !Lacking(loop.archive)
    ensures saved.Some? && !Lacking(loop.archive) ==> loop.observation == loop.controller.observation
    ensures resumed.Some? ==>
              && fresh(resumed.value) && resumed.value.Inv() && resumed.value.Stands()
              && resumed.value.Snapshot() == loop.Snapshot() && resumed.value.controller.Now() == loop.controller.Now()
              && resumed.value.observation == loop.observation
  {
    InvParts(loop);
    CoversAll(loop.controller.Now(), loop.Snapshot());
    hide Binds, Bound, Uncovered, AtFront, ArcAvoLoop.Inv, Loads, OneEach, Coherent, Books.Valid, Books.Covers,
        Standing;
    saved := loop.TakeCheckpoint();
    if saved.None? { return saved, None; }
    BoundStandsAtController(loop.Snapshot(), loop.observation, loop.controller.observation);
    assert saved.value.Body() == loop.Snapshot();
    resumed := ArcAvoLoop.ResumeFrom(saved.value, loop.features, loop.versions);
  }

  lemma InvParts(loop: ArcAvoLoop)
    requires loop.Inv()
    ensures loop.controller.Now().Valid() && OneEach(loop.records)
    ensures Loads(loop.archive, loop.features) <==> !Lacking(loop.archive)
  {
    hide Settled, Books.Valid, Filed, Loads, Lacking, OneEach;
    LoadsUnlessLacking(loop.archive, loop.features);
  }

  // ---------------------------------------------------------------- how the binding is lost, and mended

  /** An action that has no effect. */
  function Probe(o: Hash, key: string): PlanStep {
    PlanStep(o, key, "ACTION1", "none", None, Some(o))
  }

  function ProbeReceipt(o: Hash, key: string): Receipt {
    ReceiptOf(Probe(o, key), o, 0)
  }

  /** The books before any action, and once the probe has been committed. */
  function Blank(o: Hash): Books {
    Books([], map[], o, false)
  }

  function Probed(o: Hash, key: string): Books {
    Books([ProbeReceipt(o, key)], map[key := ProbeReceipt(o, key)], o, false)
  }

  /** The probe, as often as the plan says: once it acts, and then it is answered. */
  lemma {:induction false} ProbeCourse(n: nat, features: Features, o: Hash, key: string, recorded: set<Receipt>,
      completed: seq<Receipt>)
    requires |completed| <= n <= features.StepLimit()
    ensures var c := Fly(Probes(n, o, key), Facing(Always(Acting(o, true))), features, recorded, completed,
              Probed(o, key));
            c.completed == completed + seq(n - |completed|, _ => ProbeReceipt(o, key)) && c.books == Probed(o, key)
    decreases n - |completed|
  {
    var steps, w := Probes(n, o, key), Facing(Always(Acting(o, true)));
    if |completed| == n {
      FlyDone(steps, w, features, recorded, completed, Probed(o, key));
    } else {
      FlyOn(steps, w, features, recorded, completed, Probed(o, key));
      ActsAgain(Probe(o, key), Acting(o, true), features, recorded, completed, Probed(o, key));
      var one := TurnOf(Probe(o, key), Acting(o, true), features, recorded, completed, Probed(o, key));
      hide TurnOf, Fly;
      ProbeCourse(n, features, o, key, one.recorded, one.completed);
      assert [ProbeReceipt(o, key)] + seq(n - |completed| - 1, _ => ProbeReceipt(o, key))
             == seq(n - |completed|, _ => ProbeReceipt(o, key));
    }
  }

  function Probes(n: nat, o: Hash, key: string): (steps: seq<PlanStep>)
    ensures |steps| == n && forall i :: 0 <= i < n ==> steps[i] == Probe(o, key)
  {
    seq(n, _ => Probe(o, key))
  }

  /** A plan of `n` probes, on blank books and on those of the first. */
  lemma ProbeFresh(n: nat, d: Draft, features: Features, o: Hash, key: string, recorded: set<Receipt>)
    requires 0 < n <= features.StepLimit() && d.base == o && d.steps == Probes(n, o, key)
    ensures WellPlanned(d, features)
    ensures var c := CourseFor(d, Always(Acting(o, true)), features, recorded, Blank(o));
            c.completed == seq(n, _ => ProbeReceipt(o, key)) && c.books == Probed(o, key)
  {
    var steps, w := Probes(n, o, key), Facing(Always(Acting(o, true)));
    FlyOn(steps, w, features, recorded, [], Blank(o));
    ActsFresh(Probe(o, key), o, features, recorded, [], Blank(o));
    var one := TurnOf(Probe(o, key), Acting(o, true), features, recorded, [], Blank(o));
    hide TurnOf, Fly;
    assert one.completed == [ProbeReceipt(o, key)] && one.books == Probed(o, key);
    ProbeCourse(n, features, o, key, one.recorded, one.completed);
    assert [ProbeReceipt(o, key)] + seq(n - 1, _ => ProbeReceipt(o, key)) == seq(n, _ => ProbeReceipt(o, key));
  }

  lemma ProbeAgain(d: Draft, features: Features, o: Hash, key: string, recorded: set<Receipt>)
    requires d.base == o && d.steps == Probes(1, o, key)
    ensures WellPlanned(d, features)
    ensures var c := CourseFor(d, Always(Acting(o, true)), features, recorded, Probed(o, key));
            c.completed == [ProbeReceipt(o, key)] && c.books == Probed(o, key)
  {
    ProbeCourse(1, features, o, key, recorded, []);
    hide Fly;
    assert [] + seq(1, _ => ProbeReceipt(o, key)) == [ProbeReceipt(o, key)];
  }

  /** A new loop over a new controller. */
  method Begin(features: Features, o: Hash) returns (loop: ArcAvoLoop)
    ensures fresh(loop) && fresh(loop.controller) && loop.Inv() && loop.features == features && loop.baseline == 0
    ensures loop.controller.Now() == Blank(o) && loop.observation == o && loop.archive == Archive([], [], [])
    ensures loop.records == [] && Cited(loop.archive.outcomes) == [] && !Stray(loop.Snapshot())
    ensures loop.Stands() && !Lacking(loop.archive)
  {
    var controller := new Controller([], map[], o);
    loop := new ArcAvoLoop(controller, features, "versions");
  }

  /** A loop with one receipt: it binds if that is cited once; cited twice, or without a result, it is doomed. */
  lemma OneReceipt(cp: Checkpoint, ledger: map<string, Receipt>)
    requires cp.baseline == 0 && |cp.receipts| == 1 && !Stray(cp)
    ensures Bound(cp) <==> Cited(cp.archive.outcomes) == cp.receipts
    ensures Cited(cp.archive.outcomes) == cp.receipts + cp.receipts ==> Doomed(cp, ledger)
    ensures cp.receipts[0] in ledger.Values <==> !Uncovered(cp, ledger)
    ensures ledger == map[] ==> Doomed(cp, ledger)
  {
    hide Cited, Stray;
    assert Loop(cp) == cp.receipts;
    if ledger == map[] {
      assert cp.receipts[0] !in ledger.Values;
    }
  }

  lemma OneIsDistinct(r: Receipt)
    ensures Distinct([r]) && !Distinct([r, r]) && Distinct<Receipt>([])
  {
    assert [r, r][0] == [r, r][1];
  }

  lemma InLedger(key: string, o: Hash)
    ensures ProbeReceipt(o, key) in Probed(o, key).ledger.Values
  {
    assert Probed(o, key).ledger[key] == ProbeReceipt(o, key);
  }

  /** The decision after `n` probes in one plan: an outcome for one of them, none for more. */
  method ProbeFirst(n: nat, features: Features, o: Hash, key: string) returns (loop: ArcAvoLoop)
    requires features.maxActions >= 1 && 0 < n <= features.StepLimit()
    ensures fresh(loop) && fresh(loop.controller) && loop.Inv() && loop.features == features && loop.baseline == 0
    ensures loop.controller.Now() == Probed(o, key) && loop.observation == o
    ensures loop.archive.candidates == [Candidate(Draft(o, Probes(n, o, key), "first"), 0)]
    ensures Cited(loop.archive.outcomes) == if n == 1 then [ProbeReceipt(o, key)] else []
    ensures |loop.archive.outcomes| == if n == 1 then 1 else 0
    ensures n == 1 || !features.retrodictive ==> !Stray(loop.Snapshot())
    ensures loop.Stands() && (Lacking(loop.archive) <==> n != 1)
  {
    hide *;
    loop := Begin(features, o);
    ghost var recorded := loop.Recorded();
    BlankIsEmpty(o);
    var d := Draft(o, Probes(n, o, key), "first");
    ProbeFresh(n, d, features, o, key, recorded);
    NoGate(o, true);
    ghost var c := DecideOn(loop, d, Always(Acting(o, true)));
    ProbesRepeat(n, ProbeReceipt(o, key));
    ProbesStay(n, o, key);
  }

  lemma BlankIsEmpty(o: Hash)
    ensures Blank(o) == Books([], map[], o, false)
  {
  }

  lemma NoGate(o: Hash, commits: bool)
    ensures Always(Acting(o, commits))(0).gate.None?
  {
  }

  lemma ProbesRepeat(n: nat, r: Receipt)
    requires n > 0
    ensures var rs := seq(n, _ => r); (Distinct(rs) <==> n == 1) && (n == 1 ==> rs == [r]) && forall x :: x in rs ==>
            x == r
  {
    var rs := seq(n, _ => r);
    if n > 1 {
      assert rs[0] == rs[1];
    }
  }

  lemma ProbesStay(n: nat, o: Hash, key: string)
    ensures Observed(o, seq(n, _ => ProbeReceipt(o, key))) == o
  {
  }

  /** The first draft is not the second. */
  lemma OtherBody(n: nat, m: nat, o: Hash, key: string)
    ensures Candidate(Draft(o, Probes(m, o, key), "second"), 0) !in [Candidate(Draft(o, Probes(n, o, key), "first"), 0)]
  {
    assert "first"[0] != "second"[0];
  }

  /** One more probe, when the first has been committed: its receipt is cited, or cited again. */
  method ProbeSecond(loop: ArcAvoLoop, n: nat, o: Hash, key: string)
    requires loop.Inv() && loop.controller.Now() == Probed(o, key) && loop.observation == o && loop.baseline == 0
    requires |loop.archive.outcomes| < loop.features.maxActions && !Stray(loop.Snapshot())
    requires loop.archive.candidates == [Candidate(Draft(o, Probes(n, o, key), "first"), 0)]
    modifies loop, loop.controller
    ensures loop.Inv() && loop.controller.Now() == Probed(o, key) && !Stray(loop.Snapshot())
    ensures Cited(loop.archive.outcomes) == old(Cited(loop.archive.outcomes)) + [ProbeReceipt(o, key)]
    ensures (old(loop.Stands()) ==> loop.Stands()) && (Lacking(loop.archive) <==> old(Lacking(loop.archive)))
  {
    hide *;
    var d := Draft(o, Probes(1, o, key), "second");
    ProbeAgain(d, loop.features, o, key, loop.Recorded());
    NoGate(o, true);
    OtherBody(n, 1, o, key);
    ghost var c := DecideOn(loop, d, Always(Acting(o, true)));
    OneIsDistinct(ProbeReceipt(o, key));
  }

  /** What a checkpoint of a loop with the probe's receipt says. */
  lemma ProbedBinds(loop: ArcAvoLoop, o: Hash, key: string)
    requires loop.controller.Now() == Probed(o, key) && loop.baseline == 0 && !Stray(loop.Snapshot())
    ensures !Uncovered(loop.Snapshot(), loop.controller.ledger)
    ensures Bound(loop.Snapshot()) <==> Cited(loop.archive.outcomes) == [ProbeReceipt(o, key)]
    ensures Cited(loop.archive.outcomes) == [ProbeReceipt(o, key)] + [ProbeReceipt(o, key)] ==>
              Doomed(loop.Snapshot(), loop.controller.ledger)
  {
    assert loop.controller.ledger == Probed(o, key).ledger && loop.controller.receipts == [ProbeReceipt(o, key)];
    InLedger(key, o);
    hide Stray, Cited, Bound, Doomed;
    OneReceipt(loop.Snapshot(), loop.controller.ledger);
  }

  /**
   * A replay breaks the binding: an action without effect, then a second draft that reuses its request. The second
   * outcome cites the first one's receipt again, and no later checkpoint will be emitted.
   */
  method ReplayBreaksBinding(features: Features, o: Hash, key: string)
    returns (before: Option<Saved>, after: Option<Saved>, loop: ArcAvoLoop)
    requires features.maxActions >= 2
    ensures before.Some? && after.None? && loop.Inv() && Doomed(loop.Snapshot(), loop.controller.ledger)
  {
    hide *;
    loop := ProbeFirst(1, features, o, key);
    ProbedBinds(loop, o, key);
    before := loop.TakeCheckpoint();
    ProbeSecond(loop, 1, o, key);
    ProbedBinds(loop, o, key);
    after := loop.TakeCheckpoint();
  }

  /**
   * A replay also mends it: one plan that asks twice for the same action has its outcome refused, so that its receipt
   * goes uncited, until a second draft reuses the request and is answered with just that receipt. Its checkpoint is
   * emitted again, but no loop takes it up: the first selection has no outcome.
   */
  method ReplayMendsBinding(features: Features, o: Hash, key: string)
    returns (before: Option<Saved>, after: Option<Saved>, resumed: Option<ArcAvoLoop>, loop: ArcAvoLoop)
    requires features.maxActions >= 1 && features.StepLimit() >= 2 && !features.retrodictive
    ensures before.None? && after.Some? && resumed.None? && loop.Inv()
  {
    hide *;
    loop := ProbeFirst(2, features, o, key);
    ProbedBinds(loop, o, key);
    before := loop.TakeCheckpoint();
    ProbeSecond(loop, 2, o, key);
    ProbedBinds(loop, o, key);
    after, resumed := SaveAndResume(loop);
  }

  lemma LossCourse(features: Features, o: Hash, key: string, recorded: set<Receipt>)
    ensures var c := CourseFor(Draft(o, Probes(1, o, key), "first"), Always(Acting(o, false)), features, recorded,
              Blank(o));
            && c.completed == [] && c.books == Books([ProbeReceipt(o, key)], map[], o, true)
  {
    var steps, w := Probes(1, o, key), Facing(Always(Acting(o, false)));
    FlyOn(steps, w, features, recorded, [], Blank(o));
    assert !Blank(o).Admits(RequestOf(Probe(o, key), Acting(o, false)), Acting(o, false).event);
  }

  /** A loss breaks it: the receipt was appended, its commit failed, and no outcome will ever cite it. */
  method LossBreaksBinding(features: Features, o: Hash, key: string) returns (after: Option<Saved>, loop: ArcAvoLoop)
    requires features.maxActions >= 1
    ensures after.None? && loop.Inv() && Doomed(loop.Snapshot(), loop.controller.ledger)
  {
    hide *;
    loop := Begin(features, o);
    ghost var recorded := loop.Recorded();
    BlankIsEmpty(o);
    var d := Draft(o, Probes(1, o, key), "first");
    ProbeFresh(1, d, features, o, key, recorded);
    LossCourse(features, o, key, recorded);
    NoGate(o, false);
    ghost var c := DecideOn(loop, d, Always(Acting(o, false)));
    OneIsDistinct(ProbeReceipt(o, key));
    LossDooms(loop, o, key);
    after := loop.TakeCheckpoint();
  }

  lemma LossDooms(loop: ArcAvoLoop, o: Hash, key: string)
    requires loop.controller.Now() == Books([ProbeReceipt(o, key)], map[], o, true) && loop.baseline == 0
    requires !Stray(loop.Snapshot())
    ensures Doomed(loop.Snapshot(), loop.controller.ledger)
  {
    hide Stray, Cited, Doomed;
    OneReceipt(loop.Snapshot(), loop.controller.ledger);
  }

  // ---------------------------------------------------------------- how a mendable loop is mended

  /** The plan that asks again for everything due. */
  function Replaying(due: seq<Receipt>): (steps: seq<PlanStep>)
    ensures |steps| == |due|
  {
    seq(|due|, i requires 0 <= i < |due| =>
      PlanStep(due[i].request.expected, due[i].request.key, due[i].request.action, due[i].request.expectation, None,
               if i + 1 < |due| then Some(due[i + 1].request.expected) else None))
  }

  function ReplayTurns(due: seq<Receipt>): nat -> Turn {
    (i: nat) => Turn(None, if i < |due| then due[i].request.directive
          else None, Refused("replay"), false, false, false, None, None)
  }

  /** Receipts of the ledger, each starting where the one before ended. */
  ghost predicate Replayable(due: seq<Receipt>, b: Books) {
    && (forall i :: 0 <= i < |due| ==> due[i].request.key in b.ledger && b.ledger[due[i].request.key] == due[i])
    && (forall i :: 0 <= i < |due| - 1 ==> due[i + 1].request.expected == due[i].post)
  }

  /** It is answered with exactly that, and changes nothing of the controller. */
  lemma {:induction false} ReplayCourse(due: seq<Receipt>, features: Features, recorded: set<Receipt>, k: nat, b: Books)
    requires k <= |due| <= features.StepLimit() && Replayable(due, b)
    ensures var c := Fly(Replaying(due), Facing(ReplayTurns(due)), features, recorded, due[..k], b);
            c.completed == due && c.books == b
    decreases |due| - k
  {
    var steps, w := Replaying(due), Facing(ReplayTurns(due));
    if k == |due| {
      assert due[..k] == due;
      FlyDone(steps, w, features, recorded, due, b);
    } else {
      FlyOn(steps, w, features, recorded, due[..k], b);
      ActsAgain(steps[k], w.turn(k), features, recorded, due[..k], b);
      var one := TurnOf(steps[k], w.turn(k), features, recorded, due[..k], b);
      hide TurnOf, Fly;
      assert due[..k] + [due[k]] == due[..k + 1];
      ReplayCourse(due, features, one.recorded, k + 1, b);
    }
  }

  /** A body longer than all there are. */
  function NewBody(cs: seq<Candidate>): (body: string)
    ensures forall c :: c in cs ==> |c.draft.body| < |body|
  {
    if cs == [] then "x"
    else
      var rest := NewBody(cs[1..]);
      assert forall c :: c in cs ==> c == cs[0] || c in cs[1..];
      rest + cs[0].draft.body
  }

  lemma DueIsReplayable(cp: Checkpoint, b: Books)
    requires b.Valid() && cp.receipts == b.receipts && !Uncovered(cp, b.ledger)
    requires InOrder(cp, Cited(cp.archive.outcomes))
    ensures Replayable(Uncited(cp), b) && Distinct(Uncited(cp))
  {
    hide Cited;
    var due, n := Uncited(cp), cp.baseline + |Cited(cp.archive.outcomes)|;
    assert due == cp.receipts[n..];
    forall i | 0 <= i < |due| ensures due[i] == b.receipts[n + i] && due[i] in b.ledger.Values {
      assert cp.receipts[n + i] in b.ledger.Values;
    }
    forall i | 0 <= i < |due| ensures due[i].request.key in b.ledger && b.ledger[due[i].request.key] == due[i] {
      var k :| k in b.ledger && b.ledger[k] == due[i];
    }
  }

  /** Everything due is asked for again, and the loop binds. */
  method Mend(loop: ArcAvoLoop) returns (saved: Option<Saved>)
    requires loop.Inv() && Mendable(loop.Snapshot(), loop.observation, loop.controller.Now(), loop.features)
    modifies loop, loop.controller
    ensures saved.Some? && loop.Inv() && Bound(loop.Snapshot()) && loop.controller.Now() == old(loop.controller.Now())
    ensures !Uncovered(loop.Snapshot(), loop.controller.ledger)
    ensures (old(loop.Stands()) ==> loop.Stands()) && (Lacking(loop.archive) <==> old(Lacking(loop.archive)))
  {
    hide *;
    DueFits(loop);
    ghost var cp, b := loop.Snapshot(), loop.controller.Now();
    var due := loop.controller.receipts[loop.baseline + |Cited(loop.archive.outcomes)|..];
    var d := Draft(loop.observation, Replaying(due), NewBody(loop.archive.candidates));
    MendPlan(loop, due, d);
    SameReceipts(loop);
    ghost var c := DecideOn(loop, d, ReplayTurns(due));
    SameReceipts(loop);
    DueBinds(cp, b, old(loop.observation), loop.Snapshot(), loop.observation, c, loop.features, due);
    StillCovered(cp, loop.Snapshot(), loop.controller.ledger);
    saved := loop.TakeCheckpoint();
  }

  /** But a loop with a refused outcome behind it is mended only to emit checkpoints that no loop takes up. */
  method MendInVain(loop: ArcAvoLoop) returns (saved: Option<Saved>, resumed: Option<ArcAvoLoop>)
    requires loop.Inv() && loop.Stands() && Lacking(loop.archive)
    requires Mendable(loop.Snapshot(), loop.observation, loop.controller.Now(), loop.features)
    modifies loop, loop.controller
    ensures saved.Some? && resumed.None? && loop.Inv() && Lacking(loop.archive)
  {
    hide *;
    saved := Mend(loop);
    saved, resumed := SaveAndResume(loop);
  }

  lemma SameReceipts(loop: ArcAvoLoop)
    ensures loop.Snapshot().receipts == loop.controller.Now().receipts
            && loop.controller.ledger == loop.controller.Now().ledger
  {
  }

  lemma DueFits(loop: ArcAvoLoop)
    requires Mendable(loop.Snapshot(), loop.observation, loop.controller.Now(), loop.features)
    ensures loop.baseline + |Cited(loop.archive.outcomes)| <= |loop.controller.receipts|
  {
    hide Cited, Stray, Uncovered;
  }

  lemma MendPlan(loop: ArcAvoLoop, due: seq<Receipt>, d: Draft)
    requires loop.Inv() && Mendable(loop.Snapshot(), loop.observation, loop.controller.Now(), loop.features)
    requires loop.baseline + |Cited(loop.archive.outcomes)| <= |loop.controller.receipts|
    requires due == loop.controller.receipts[loop.baseline + |Cited(loop.archive.outcomes)|..]
    requires d == Draft(loop.observation, Replaying(due), NewBody(loop.archive.candidates))
    ensures InOrder(loop.Snapshot(), Cited(loop.Snapshot().archive.outcomes)) && due == Uncited(loop.Snapshot())
            && Distinct(due)
    ensures !Stray(loop.Snapshot()) && !Uncovered(loop.Snapshot(), loop.controller.ledger)
    ensures WellPlanned(d, loop.features) && ReplayTurns(due)(0).gate.None?
    ensures |loop.archive.outcomes| < loop.features.maxActions && Candidate(d, 0) !in loop.archive.candidates
    ensures var c := CourseFor(d, ReplayTurns(due), loop.features, loop.Recorded(), loop.controller.Now());
            c.completed == due && c.books == loop.controller.Now()
  {
    hide Cited, Stray, Shaped, Settled, Uncovered, Books.Valid, Distinct, Fly;
    DueIsReplayable(loop.Snapshot(), loop.controller.Now());
    ReplayCourse(due, loop.features, loop.Recorded(), 0, loop.controller.Now());
    assert due[..0] == [];
  }

  lemma DueBinds(before: Checkpoint, b: Books, stood: Hash, after: Checkpoint, stands: Hash, c: Course,
      features: Features, due: seq<Receipt>)
    requires Accounts(before, b, stood, after, stands, c, features) && after.receipts == before.receipts
    requires InOrder(before, Cited(before.archive.outcomes)) && !Stray(before)
    requires c.completed == due == Uncited(before) && Distinct(due)
    ensures Bound(after)
  {
    hide Cited, Stray, Bound, Doomed, Mendable, Stuck, AtFront, Front, Uncited, InOrder, Distinct;
    assert Since(before, after) == [] && due + [] == due;
  }

  lemma StillCovered(before: Checkpoint, after: Checkpoint, ledger: map<string, Receipt>)
    requires after.receipts == before.receipts && !Uncovered(before, ledger)
    ensures !Uncovered(after, ledger)
  {
  }

  // ---------------------------------------------------------------- left behind, and stuck

  /** An action from one observation to another. */
  function Move(from: Hash, key: string, to: Hash): PlanStep {
    PlanStep(from, key, "ACTION1", "none", None, Some(to))
  }

  function There(o: Hash, p: Hash, key: string): Receipt {
    ReceiptOf(Move(o, key, p), p, 0)
  }

  function Back(o: Hash, p: Hash, key: string): Receipt {
    ReceiptOf(Move(p, key, o), o, 1)
  }

  /** The books after going there, and after coming back. */
  function Gone(o: Hash, p: Hash, key: string): Books {
    Books([There(o, p, key)], map[key := There(o, p, key)], p, false)
  }

  function Returned(o: Hash, p: Hash, key: string, other: string): Books {
    Books([There(o, p, key), Back(o, p, other)], map[key := There(o, p, key), other := Back(o, p, other)], o, false)
  }

  /** The plan that goes there, comes back, and goes there again. */
  function RoundTrip(o: Hash, p: Hash, key: string, other: string): Draft {
    Draft(o, [Move(o, key, p), Move(p, other, o), Move(o, key, p)], "third")
  }

  lemma OneMove(from: Hash, key: string, to: Hash, name: string, features: Features, recorded: set<Receipt>, b: Books)
    requires !b.faulted && key !in b.ledger && b.observation == from
    ensures var d := Draft(from, [Move(from, key, to)], name);
            var c := CourseFor(d, Always(Acting(to, true)), features, recorded, b);
            var r := ReceiptOf(Move(from, key, to), to, |b.receipts|);
            && WellPlanned(d, features) && c.completed == [r] && Distinct(c.completed)
            && c.books == Books(b.receipts + [r], b.ledger[key := r], to, false)
  {
    var steps, w := [Move(from, key, to)], Facing(Always(Acting(to, true)));
    FlyOn(steps, w, features, recorded, [], b);
    ActsFresh(steps[0], to, features, recorded, [], b);
    var one := TurnOf(steps[0], w.turn(0), features, recorded, [], b);
    hide TurnOf, Fly;
    FlyDone(steps, w, features, one.recorded, one.completed, one.books);
  }

  /** Asked for once both ways are known, the round trip is answered from the ledger. */
  lemma RoundTripCourse(o: Hash, p: Hash, key: string, other: string, features: Features, recorded: set<Receipt>)
    requires key != other && features.StepLimit() >= 3
    ensures var d, b := RoundTrip(o, p, key, other), Returned(o, p, key, other);
            var c := CourseFor(d, Always(Acting(o, true)), features, recorded, b);
            && WellPlanned(d, features) && c.books == b && !Distinct(c.completed)
            && Observed(o, c.completed) == p
  {
    var steps, w, b := RoundTrip(o, p, key, other).steps, Facing(Always(Acting(o, true))), Returned(o, p, key, other);
    var r, q := There(o, p, key), Back(o, p, other);
    hide TurnOf, Fly;
    var later := FlyAgain(steps, w, features, recorded, [], b);
    assert [] + [r] == [r];
    later := FlyAgain(steps, w, features, later, [r], b);
    assert [r] + [q] == [r, q];
    later := FlyAgain(steps, w, features, later, [r, q], b);
    assert [r, q] + [r] == [r, q, r];
    FlyDone(steps, w, features, later, [r, q, r], b);
    assert [r, q, r][0] == [r, q, r][2];
  }

  lemma KeysDiffer(o: Hash, p: Hash, key: string, other: string)
    requires key != other
    ensures other !in Gone(o, p, key).ledger && Gone(o, p, key).observation == p && !Gone(o, p, key).faulted
    ensures key !in Blank(o).ledger && Blank(o).observation == o && !Blank(o).faulted
    ensures Books(Blank(o).receipts + [There(o, p, key)], Blank(o).ledger[key := There(o, p, key)], p, false)
            == Gone(o, p, key)
    ensures Books(Gone(o, p, key).receipts + [Back(o, p, other)], Gone(o, p, key).ledger[other := Back(o, p, other)], o,
              false)
         == Returned(o, p, key, other)
    ensures |Blank(o).receipts| == 0 && |Gone(o, p, key).receipts| == 1
    ensures Observed(o, [There(o, p, key)]) == p && Observed(p, [Back(o, p, other)]) == o
  {
  }

  lemma NamesDiffer(a: seq<PlanStep>, b: seq<PlanStep>, c: seq<PlanStep>, o: Hash, p: Hash)
    ensures Candidate(Draft(p, b, "second"), 0) !in [Candidate(Draft(o, a, "first"), 0)]
    ensures Candidate(Draft(o, c, "third"), 0) !in [Candidate(Draft(o, a, "first"), 0)]
            + [Candidate(Draft(p, b, "second"), 0)]
  {
    assert "first"[0] != "second"[0] && "third"[0] != "first"[0] && "third"[0] != "second"[0];
  }

  /** The loop has gone there and come back, each decision with its outcome. */
  method ThereAndBack(features: Features, o: Hash, p: Hash, key: string, other: string) returns (loop: ArcAvoLoop)
    requires features.maxActions >= 2 && key != other
    ensures fresh(loop) && fresh(loop.controller) && loop.Inv() && loop.features == features && loop.baseline == 0
    ensures loop.controller.Now() == Returned(o, p, key, other) && loop.observation == o && |loop.archive.outcomes| == 2
    ensures loop.archive.candidates
            == [Candidate(Draft(o, [Move(o, key, p)], "first"), 0)]
                + [Candidate(Draft(p, [Move(p, other, o)], "second"), 0)]
    ensures Cited(loop.archive.outcomes) == [There(o, p, key)] + [Back(o, p, other)] && !Stray(loop.Snapshot())
    ensures loop.Stands()
  {
    hide *;
    loop := Begin(features, o);
    KeysDiffer(o, p, key, other);
    NoGate(o, true);
    NoGate(p, true);
    OneMove(o, key, p, "first", features, loop.Recorded(), Blank(o));
    MoveReceipts(o, p, key, other);
    ghost var first := DecideOn(loop, Draft(o, [Move(o, key, p)], "first"), Always(Acting(p, true)));
    OneMove(p, other, o, "second", features, loop.Recorded(), Gone(o, p, key));
    NamesDiffer([Move(o, key, p)], [Move(p, other, o)], [], o, p);
    ghost var second := DecideOn(loop, Draft(p, [Move(p, other, o)], "second"), Always(Acting(o, true)));
  }

  lemma MoveReceipts(o: Hash, p: Hash, key: string, other: string)
    ensures ReceiptOf(Move(o, key, p), p, 0) == There(o, p, key)
            && ReceiptOf(Move(p, other, o), o, 1) == Back(o, p, other)
  {
  }

  lemma ReturnedBinds(loop: ArcAvoLoop, o: Hash, p: Hash, key: string, other: string)
    requires loop.controller.Now() == Returned(o, p, key, other) && loop.baseline == 0 && !Stray(loop.Snapshot())
             && key != other
    requires Cited(loop.archive.outcomes) == [There(o, p, key)] + [Back(o, p, other)]
    ensures Bound(loop.Snapshot()) && !Uncovered(loop.Snapshot(), loop.controller.ledger)
  {
    hide Cited, Stray;
    var l := loop.controller.ledger;
    assert loop.controller.receipts == [There(o, p, key), Back(o, p, other)];
    assert l[key] == There(o, p, key) && l[other] == Back(o, p, other);
    assert Loop(loop.Snapshot()) == loop.controller.receipts;
  }

  /**
   * A refused outcome can also leave the loop behind its controller: after going there and back, a plan of known
   * requests ends there once more and is refused for citing twice. The checkpoint is emitted all the same.
   */
  method LeftBehind(features: Features, o: Hash, p: Hash, key: string, other: string)
    returns (saved: Option<Saved>, resumed: Option<ArcAvoLoop>, loop: ArcAvoLoop)
    requires features.maxActions >= 3 && features.StepLimit() >= 3 && !features.retrodictive && key != other && o != p
    ensures saved.Some? && resumed.None? && loop.observation != loop.controller.observation
  {
    hide *;
    loop := ThereAndBack(features, o, p, key, other);
    RoundTripCourse(o, p, key, other, features, loop.Recorded());
    NoGate(o, true);
    NamesDiffer([Move(o, key, p)], [Move(p, other, o)], [Move(o, key, p), Move(p, other, o), Move(o, key, p)], o, p);
    RoundTripIs(o, p, key, other);
    ghost var third := DecideOn(loop, RoundTrip(o, p, key, other), Always(Acting(o, true)));
    ReturnedBinds(loop, o, p, key, other);
    BoundStandsAtController(loop.Snapshot(), loop.observation, loop.controller.observation);
    StandsAt(loop.controller);
    saved, resumed := SaveAndResume(loop);
  }

  lemma StandsAt(controller: Controller)
    ensures controller.Now().observation == controller.observation
  {
  }

  lemma RoundTripIs(o: Hash, p: Hash, key: string, other: string)
    ensures RoundTrip(o, p, key, other) == Draft(o, [Move(o, key, p), Move(p, other, o), Move(o, key, p)], "third")
    ensures Returned(o, p, key, other).observation == o
  {
  }

  // A plan that probes twice, moves on, and there meets a failing environment.
  function Doubtful(o: Hash, p: Hash, keys: seq<string>): Draft
    requires |keys| == 3
  {
    Draft(o, [Probe(o, keys[0]), Probe(o, keys[0]), Move(o, keys[1], p), Probe(p, keys[2])], "first")
  }

  function DoubtfulTurns(o: Hash, p: Hash): nat -> Turn {
    (i: nat) => if i < 2 then Acting(o, true) else if i == 2 then Acting(p, true)
         else Turn(None, None, StepFails, false, false, false, None, None)
  }

  /** The books that leaves. */
  function Failed(o: Hash, p: Hash, keys: seq<string>): Books
    requires |keys| == 3
  {
    var r, q := ProbeReceipt(o, keys[0]), ReceiptOf(Move(o, keys[1], p), p, 1);
    Books([r, q], map[keys[0] := r, keys[1] := q], p, true)
  }

  lemma DoubtfulCourse(o: Hash, p: Hash, keys: seq<string>, features: Features, recorded: set<Receipt>)
    requires |keys| == 3 && Distinct(keys) && features.StepLimit() >= 4
    ensures var d := Doubtful(o, p, keys);
            var c := CourseFor(d, DoubtfulTurns(o, p), features, recorded, Blank(o));
            && WellPlanned(d, features) && DoubtfulTurns(o, p)(0).gate.None? && c.books == Failed(o, p, keys)
            && !Distinct(c.completed) && Observed(o, c.completed) == p
  {
    var steps, w, r := Doubtful(o, p, keys).steps, Facing(DoubtfulTurns(o, p)), ProbeReceipt(o, keys[0]);
    hide TurnOf, Fly;
    var later := FlyFresh(steps, w, features, recorded, [], Blank(o), o);
    assert [] + [r] == [r];
    later := FlyAgain(steps, w, features, later, [r], Probed(o, keys[0]));
    assert [r] + [r] == [r, r];
    DoubtfulEnd(o, p, keys, features, later);
    TwiceIsRepeat(r, ReceiptOf(Move(o, keys[1], p), p, 1));
  }

  lemma DoubtfulEnd(o: Hash, p: Hash, keys: seq<string>, features: Features, recorded: set<Receipt>)
    requires |keys| == 3 && Distinct(keys) && features.StepLimit() >= 4
    ensures var r, q := ProbeReceipt(o, keys[0]), ReceiptOf(Move(o, keys[1], p), p, 1);
            var c := Fly(Doubtful(o, p, keys).steps, Facing(DoubtfulTurns(o, p)), features, recorded, [r, r],
                  Probed(o, keys[0]));
            c.completed == [r, r, q] && c.books == Failed(o, p, keys)
  {
    var steps, w := Doubtful(o, p, keys).steps, Facing(DoubtfulTurns(o, p));
    var r, q := ProbeReceipt(o, keys[0]), ReceiptOf(Move(o, keys[1], p), p, 1);
    assert keys[0] != keys[1] && keys[0] != keys[2] && keys[1] != keys[2];
    hide TurnOf, Fly, Distinct;
    var later := FlyFresh(steps, w, features, recorded, [r, r], Probed(o, keys[0]), p);
    var b := Failed(o, p, keys).(faulted := false);
    assert [r, r] + [q] == [r, r, q];
    FlyOn(steps, w, features, later, [r, r, q], b);
    StepFailing(steps[3], w.turn(3), features, later, [r, r, q], b);
  }

  lemma TwiceIsRepeat(r: Receipt, q: Receipt)
    ensures !Distinct([r, r, q])
  {
    assert [r, r, q][0] == [r, r, q][1];
  }

  lemma StepFailing(step: PlanStep, t: Turn, features: Features, recorded: set<Receipt>, completed: seq<Receipt>,
      b: Books)
    requires t.gate.None? && t.event == StepFails && step.directive.None? && step.key !in b.ledger
    requires !b.faulted && step.expected == b.observation
    ensures var c := TurnOf(step, t, features, recorded, completed, b);
            c.completed == completed && !c.advances && c.books == b.(faulted := true)
  {
  }

  lemma FailedIsStuck(loop: ArcAvoLoop, o: Hash, p: Hash, keys: seq<string>)
    requires |keys| == 3 && Distinct(keys) && o != p && loop.baseline == 0 && !Stray(loop.Snapshot())
    requires loop.controller.Now() == Failed(o, p, keys) && loop.observation == p && Cited(loop.archive.outcomes) == []
    ensures Stuck(loop.Snapshot(), loop.observation, loop.controller.Now())
            && !Doomed(loop.Snapshot(), loop.controller.ledger)
  {
    hide Cited, Stray;
    var l, rs := loop.controller.ledger, loop.controller.receipts;
    assert keys[0] != keys[1];
    assert Loop(loop.Snapshot()) == rs && rs == Failed(o, p, keys).receipts && |rs| == 2;
    assert l[keys[0]] == rs[0] && l[keys[1]] == rs[1];
    forall r | r in l.Values ensures r.request.expected != p {
      var k :| k in l && l[k] == r;
    }
  }

  /**
   * Not every loop that is not doomed can be mended: the refused outcome has left this one at an observation where
   * nothing was ever asked for, and its controller takes no more actions. No decision will make it bind.
   */
  method UndoomedButStuck(features: Features, o: Hash, p: Hash, keys: seq<string>) returns (loop: ArcAvoLoop)
    requires features.maxActions >= 1 && features.StepLimit() >= 4 && !features.retrodictive
    requires |keys| == 3 && Distinct(keys) && o != p
    ensures loop.Inv() && Stuck(loop.Snapshot(), loop.observation, loop.controller.Now())
    ensures !Doomed(loop.Snapshot(), loop.controller.ledger)
  {
    hide *;
    loop := Begin(features, o);
    DoubtfulCourse(o, p, keys, features, loop.Recorded());
    DoubtfulBase(o, p, keys);
    ghost var c := DecideOn(loop, Doubtful(o, p, keys), DoubtfulTurns(o, p));
    FailedIsStuck(loop, o, p, keys);
  }

  lemma DoubtfulBase(o: Hash, p: Hash, keys: seq<string>)
    requires |keys| == 3
    ensures Doubtful(o, p, keys).base == o
  {
  }
}
