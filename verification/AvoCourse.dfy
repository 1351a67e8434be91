// The transition controller as the AVO loop sees it (packages/arc-agi-3/src/controller.ts), and the
// course of one selected plan over it: what its steps come back with, and what the controller appends.
module AvoCourse {
  import opened AvoBindings
  import opened Collections
  import opened Wrappers

  // ---------------------------------------------------------------- the controller

  /** What the environment, the supervisor gate and the session log do to one request. */
  datatype Event =
    | Refused(code: string)
    | StepFails
    | BadOutput
    | Lands(post: Hash, error: real, commits: bool)

  datatype ActResult = Acted(receipt: Receipt, replayed: bool) | Threw(code: string)

  /** What the controller goes by when it is asked for an action. */
  datatype Books = Books(receipts: seq<Receipt>, ledger: map<string, Receipt>, observation: Hash, faulted: bool) {
    /**
     * Receipts are numbered in order, each starting where the one before ended, and the ledger holds results of
     * receipted requests.
     */
    ghost predicate Valid() {
      && (forall i :: 0 <= i < |receipts| ==> receipts[i].sequence == i)
      && (forall i :: 0 <= i < |receipts| - 1 ==> receipts[i + 1].request.expected == receipts[i].post)
      && (receipts != [] ==> observation == receipts[|receipts| - 1].post)
      && (forall k :: k in ledger ==> ledger[k] in receipts && ledger[k].request.key == k)
    }

    /** Every receipt has its result on the ledger, which a checkpoint of the controller has to show. */
    ghost predicate Covers() {
      |ledger| == |receipts|
    }

    /** The request is current and the controller can still act. */
    predicate Dispatches(q: Request) {
      q.key !in ledger && !faulted && q.expected == observation
    }

    /** The call returns a receipt: a recorded one for the same request, or a new one that is committed. */
    predicate Admits(q: Request, e: Event) {
      if q.key in ledger then ledger[q.key].request == q else Dispatches(q) && e.Lands? && e.commits
    }

    function Answer(q: Request, e: Event): Receipt
      requires Admits(q, e)
    {
      if q.key in ledger then ledger[q.key] else Receipt(|receipts|, q, e.post, e.error)
    }

    /** The books after the call: only a dispatched request changes them. */
    function After(q: Request, e: Event): Books {
      if !Dispatches(q) then this
      else
        match e
        case Refused(_) => this
        case Lands(post, error, commits) =>
          var r := Receipt(|receipts|, q, post, error);
          Books(receipts + [r], if commits then ledger[q.key := r] else ledger, post, !commits)
        case _ => this.(faulted := true)
    }
  }

  lemma AfterStaysValid(b: Books, q: Request, e: Event)
    requires b.Valid()
    ensures b.After(q, e).Valid()
    ensures b.Admits(q, e) ==> b.Answer(q, e) in b.After(q, e).receipts && b.Answer(q, e).request == q
  {
  }

  class Controller {
    var receipts: seq<Receipt>
    var ledger: map<string, Receipt>
    var observation: Hash
    var faulted: bool

    function Now(): Books
      reads this
    {
      Books(receipts, ledger, observation, faulted)
    }

    ghost predicate Valid()
      reads this
    {
      Now().Valid()
    }

    lemma ReceiptsAreDistinct()
      requires Valid()
      ensures Distinct(receipts)
    {
    }

    constructor (receipts: seq<Receipt>, ledger: map<string, Receipt>, observation: Hash)
      requires Books(receipts, ledger, observation, false).Valid()
      ensures Valid() && Now() == Books(receipts, ledger, observation, false)
    {
      this.receipts, this.ledger, this.observation, faulted := receipts, ledger, observation, false;
    }

    constructor Restore(b: Books)
      requires b.Valid()
      ensures Valid() && Now() == b
    {
      receipts, ledger, observation, faulted := b.receipts, b.ledger, b.observation, b.faulted;
    }

    /**
     * A known key replays its recorded result and changes nothing. Otherwise the call appends exactly
     * one receipt for the request, or throws; a throw after the append faults the controller for good.
     */
    method Act(q: Request, e: Event) returns (r: ActResult)
      requires Valid()
      modifies this
      ensures Valid() && Now() == old(Now()).After(q, e)
      ensures r.Acted? <==> old(Now()).Admits(q, e)
      ensures r.Acted? ==>
              r == Acted(old(Now()).Answer(q, e), q.key in old(ledger)) && r.receipt.request == q
                  && r.receipt in receipts
      ensures receipts == old(receipts) + if old(Now()).Dispatches(q) && e.Lands?
              then [Receipt(|old(receipts)|, q, e.post, e.error)] else []
      ensures faulted == (old(faulted) || (old(Now()).Dispatches(q) && !e.Refused? && !(e.Lands? && e.commits)))
      ensures q.key in old(ledger) ==> Now() == old(Now())
      ensures r.Acted? && !r.replayed ==>
                && receipts == old(receipts) + [r.receipt] && r.receipt.sequence == |old(receipts)|
                && ledger == old(ledger)[q.key := r.receipt] && !faulted && old(observation) == q.expected
                    && observation == r.receipt.post
      ensures r.Threw? ==> ledger == old(ledger) && (receipts != old(receipts) ==> faulted && !old(faulted))
      ensures old(faulted) ==> Now() == old(Now())
    {
      hide Books.Valid;
      AfterStaysValid(Now(), q, e);
      if q.key in ledger {
        return if ledger[q.key].request == q then Acted(ledger[q.key], true) else Threw("IDEMPOTENCY_CONFLICT");
      }
      if faulted { return Threw("FAULTED"); }
      if q.expected != observation { return Threw("STALE_OBSERVATION"); }
      match e
      case Refused(code) =>
        r := Threw(code);
      case StepFails =>
        faulted := true;
        r := Threw("ENVIRONMENT_STEP_FAILED");
      case BadOutput =>
        faulted := true;
        r := Threw("INVALID_ENVIRONMENT_OUTPUT");
      case Lands(post, error, commits) =>
        var receipt := Receipt(|receipts|, q, post, error);
        receipts := receipts + [receipt];
        observation := post;
        if !commits {
          faulted := true;
          return Threw("POST_DISPATCH_COMMIT_FAILED");
        }
        ledger := ledger[q.key := receipt];
        r := Acted(receipt, false);
    }
  }

  // ---------------------------------------------------------------- decisions

  /** What one plan step meets: the supervisor gate, the request, and the fallible work after it. */
  datatype Turn = Turn(
    gate: Option<string>, directive: Option<string>, event: Event,
    diverges: bool, caseThrows: bool, wins: bool, rules: Option<string>, rejectsRecord: Option<string>)

  /** Everything one decision cannot control. */
  datatype World = World(
    refuses: Draft -> Option<string>,
    depth: Draft -> nat,
    legal: Candidate -> bool,
    pick: seq<Candidate> -> nat,
    capacity: bool,
    turn: nat -> Turn)

  datatype StepResult = Stepped(stop: Stop, completed: seq<Receipt>) | Failed(code: string)

  datatype StepExit = Advance | Stopped(stop: Stop) | Thrown(code: string)

  /** A plan starts at its base, and each further step where the one before is to lead. */
  ghost predicate WellPlanned(d: Draft, features: Features) {
    && 1 <= |d.steps| <= features.StepLimit() && d.steps[0].expected == d.base
    && forall i :: 0 < i < |d.steps| ==> d.steps[i - 1].post == Some(d.steps[i].expected)
  }

  method CheckPlan(d: Draft, features: Features) returns (ok: bool)
    ensures ok <==> WellPlanned(d, features)
  {
    if d.steps == [] || |d.steps| > (if features.guarded then features.maxSteps else 1) { return false; }
    if d.steps[0].expected != d.base { return false; }
    for i := 1 to |d.steps|
      invariant forall j :: 0 < j < i ==> d.steps[j - 1].post == Some(d.steps[j].expected)
    {
      if d.steps[i - 1].post != Some(d.steps[i].expected) { return false; }
    }
    ok := true;
  }

  function Candidates(drafts: seq<Draft>, w: World): (cs: seq<Candidate>)
    ensures |cs| == |drafts|
    ensures forall i :: 0 <= i < |cs| ==> cs[i] == Candidate(drafts[i], w.depth(drafts[i]))
  {
    seq(|drafts|, i requires 0 <= i < |drafts| => Candidate(drafts[i], w.depth(drafts[i])))
  }

  ghost predicate Proper(d: Draft, w: World, a: Archive, observation: Hash, features: Features) {
    w.refuses(d).None? && d.base == observation && WellPlanned(d, features) && Candidate(d, w.depth(d)) !in a.candidates
  }

  /** A batch is added whole or not at all: every draft is current, well planned and new. */
  ghost predicate Addable(drafts: seq<Draft>, w: World, a: Archive, observation: Hash, features: Features) {
    && 1 <= |drafts| <= features.maxOffered && Distinct(Candidates(drafts, w))
    && forall i :: 0 <= i < |drafts| ==> Proper(drafts[i], w, a, observation, features)
  }

  lemma RepeatedDraft(drafts: seq<Draft>, w: World, i: nat)
    requires i < |drafts|
    ensures Candidates(drafts, w)[i] in Candidates(drafts, w)[..i] ==> !Distinct(Candidates(drafts, w))
  {
    var cs := Candidates(drafts, w);
    if cs[i] in cs[..i] {
      var j :| 0 <= j < i && cs[..i][j] == cs[i];
      assert cs[j] == cs[i];
    }
  }

  ghost function Eligible(candidates: seq<Candidate>, w: World): (es: seq<Candidate>)
    ensures forall c :: c in es <==> c in candidates && w.legal(c)
  {
    if candidates == [] then []
    else (if w.legal(candidates[0]) then [candidates[0]] else []) + Eligible(candidates[1..], w)
  }

  method LegalOnes(candidates: seq<Candidate>, w: World) returns (es: seq<Candidate>)
    ensures es == Eligible(candidates, w)
  {
    hide Eligible;
    es := [];
    assert candidates[0..] == candidates;
    for i := 0 to |candidates|
      invariant es + Eligible(candidates[i..], w) == Eligible(candidates, w)
    {
      EligibleFrom(candidates, w, i, es);
      if w.legal(candidates[i]) { es := es + [candidates[i]]; }
    }
    NobodyEligible(w);
    assert candidates[|candidates|..] == [];
  }

  lemma NobodyEligible(w: World)
    ensures Eligible([], w) == []
  {
  }

  lemma EligibleFrom(candidates: seq<Candidate>, w: World, i: nat, es: seq<Candidate>)
    requires i < |candidates|
    ensures es + Eligible(candidates[i..], w)
         == (if w.legal(candidates[i]) then es + [candidates[i]] else es) + Eligible(candidates[i + 1..], w)
  {
    assert candidates[i..][0] == candidates[i] && candidates[i..][1..] == candidates[i + 1..];
    var tail := Eligible(candidates[i + 1..], w);
    assert es + ([candidates[i]] + tail) == (es + [candidates[i]]) + tail;
  }

  /** The selection made among some candidates of which at least one is legal. */
  ghost function Picked(candidates: seq<Candidate>, w: World, observation: Hash): Selection
    requires Eligible(candidates, w) != []
  {
    var eligible := Eligible(candidates, w);
    Selection(observation, candidates, eligible, eligible[w.pick(eligible) % |eligible|])
  }

  // ---------------------------------------------------------------- the course of a plan

  /**
   * How a plan goes: the receipts its steps came back with, the controller's books and the receipts with a
   * world-model record, whether a further step is taken, whether a receipt was appended that no step came
   * back with, and whether some step came back with a receipt of the ledger.
   */
  datatype Course = Course(
    completed: seq<Receipt>, books: Books, recorded: set<Receipt>, advances: bool, loses: bool, replays: bool)

  ghost function RequestOf(step: PlanStep, t: Turn): Request {
    Request(step.expected, step.key, step.action, step.expectation, t.directive)
  }

  /** The result misses the postcondition of the step: the observation it names, or something else about it. */
  ghost predicate Misses(step: PlanStep, t: Turn, r: Receipt) {
    t.diverges || (step.post.Some? && step.post.value != r.post)
  }

  method Diverges(step: PlanStep, t: Turn, r: Receipt) returns (misses: bool)
    ensures misses == Misses(step, t, r)
  {
    misses := t.diverges;
    if step.post.Some? && step.post.value != r.post { misses := true; }
  }

  /** A divergence opens a supervisor case, and opening it throws. */
  ghost predicate Abandons(step: PlanStep, t: Turn, features: Features, r: Receipt) {
    features.guarded && Misses(step, t, r) && !t.wins && t.caseThrows
  }

  /** The step is not even asked of the controller. */
  predicate Withheld(step: PlanStep, t: Turn, first: bool) {
    (!first && t.gate.Some?) || (step.directive.Some? && step.directive != t.directive)
  }

  /** How an exception leaves the step: a supervision stop after real progress ends the plan normally. */
  ghost function Leave(code: string, completed: seq<Receipt>): (exit: StepExit)
    ensures !exit.Advance?
  {
    if code == "SUPERVISION_REQUIRED" && completed != [] then Stopped(ACTION_REJECTED) else Thrown(code)
  }

  method LeaveWith(code: string, completed: seq<Receipt>) returns (exit: StepExit)
    ensures exit == Leave(code, completed)
  {
    if completed == [] { return Thrown(code); }
    exit := if code == "SUPERVISION_REQUIRED" then Stopped(ACTION_REJECTED) else Thrown(code);
  }

  /** The world model ends up with a record of the receipt. */
  predicate Notes(t: Turn, features: Features, r: Receipt, recorded: set<Receipt>) {
    features.retrodictive && t.rules.None? && (r in recorded || t.rejectsRecord.None?)
  }

  /** How the turn ends once its receipt has been obtained. */
  ghost function Verdict(step: PlanStep, t: Turn, features: Features, r: Receipt, recorded: set<Receipt>,
      completed: seq<Receipt>): StepExit {
    if t.rules.Some? then Leave(t.rules.value, completed)
    else if features.retrodictive && !Notes(t, features, r, recorded) then Leave(t.rejectsRecord.value, completed)
    else if features.guarded && Misses(step, t, r) then Stopped(DIVERGED)
    else if t.wins then Stopped(COMPLETED)
    else Advance
  }

  /** One turn of a plan. A receipt is lost by exactly two guards: a failing commit, and an abandoned fresh result. */
  ghost function TurnOf(step: PlanStep, t: Turn, features: Features, recorded: set<Receipt>, completed: seq<Receipt>,
      b: Books): Course {
    var q := RequestOf(step, t);
    var ended := Course(completed, b.After(q, t.event), recorded, false, false, false);
    if Withheld(step, t, completed == []) then ended.(books := b)
    else if !b.Admits(q, t.event) then ended.(loses := b.Dispatches(q) && t.event.Lands?)
    else if Abandons(step, t, features, b.Answer(q, t.event)) then ended.(loses := q.key !in b.ledger)
    else
      var r := b.Answer(q, t.event);
      var noted := if Notes(t, features, r, recorded) then recorded + {r} else recorded;
      var exit := Verdict(step, t, features, r, recorded, completed + [r]);
      Course(completed + [r], b.After(q, t.event), noted, exit.Advance?, false, q.key in b.ledger)
  }

  lemma TurnCases(step: PlanStep, t: Turn, features: Features, recorded: set<Receipt>, completed: seq<Receipt>,
      b: Books)
    requires !Withheld(step, t, completed == [])
    ensures var c, q := TurnOf(step, t, features, recorded, completed, b), RequestOf(step, t);
            && c.books == b.After(q, t.event)
            && (if b.Admits(q, t.event) && !Abandons(step, t, features, b.Answer(q, t.event)) then
                  var r := b.Answer(q, t.event);
                  && c.completed == completed + [r]
                  && c.recorded == recorded + (if Notes(t, features, r, recorded) then {r} else {})
                  && (c.advances <==> Verdict(step, t, features, r, recorded, completed + [r]).Advance?)
                else c.completed == completed && c.recorded == recorded && !c.advances)
  {
  }

  /** An unguarded plan is its first step. */
  function StepCount(steps: seq<PlanStep>, features: Features): nat {
    if features.guarded then |steps| else if steps == [] then 0 else 1
  }

  ghost function Fly(steps: seq<PlanStep>, w: World, features: Features, recorded: set<Receipt>,
      completed: seq<Receipt>, b: Books): Course
    requires |completed| <= StepCount(steps, features)
    decreases StepCount(steps, features) - |completed|
  {
    if |completed| == StepCount(steps, features) then Course(completed, b, recorded, true, false, false)
    else
      var one := TurnOf(steps[|completed|], w.turn(|completed|), features, recorded, completed, b);
      if !one.advances then one
      else
        var rest := Fly(steps, w, features, one.recorded, one.completed, one.books);
        rest.(replays := one.replays || rest.replays)
  }

  /** The observation a plan leaves the loop with: that of the last receipt it came back with. */
  function Observed(before: Hash, completed: seq<Receipt>): Hash {
    if completed == [] then before else completed[|completed| - 1].post
  }

  /** What was appended since the books `b`. */
  function Appended(b: Books, c: Books): seq<Receipt>
    requires |b.receipts| <= |c.receipts|
  {
    c.receipts[|b.receipts|..]
  }

  /** What a course keeps of the books, and where its receipts come from. */
  ghost predicate Continues(completed: seq<Receipt>, b: Books, c: Course) {
    && b.Valid() && b.receipts <= c.books.receipts && Kept(b, c.books) && completed <= c.completed
    && (forall r :: r in c.completed[|completed|..] ==> r in c.books.ledger.Values)
  }

  /** What any number of calls keeps of the books. */
  ghost predicate Kept(b: Books, c: Books) {
    && c.Valid() && b.receipts <= c.receipts
    && (forall r :: r in c.ledger.Values ==> r in b.ledger.Values || r.sequence >= |b.receipts|)
    && (forall r :: r in b.ledger.Values ==> r in c.ledger.Values)
    && StartsAt(b, c)
  }

  /** What is appended starts where the books stand; as long as nothing is, they stay there. */
  ghost predicate StartsAt(b: Books, c: Books) {
    if |c.receipts| > |b.receipts| then c.receipts[|b.receipts|].request.expected == b.observation
    else c.observation == b.observation
  }

  lemma AfterIsValid(b: Books, q: Request, e: Event)
    requires b.Valid()
    ensures b.receipts <= b.After(q, e).receipts && Kept(b, b.After(q, e))
    ensures b.Admits(q, e) ==> b.Answer(q, e) in b.After(q, e).ledger.Values
    ensures b.Admits(q, e) && q.key in b.ledger ==> b.Answer(q, e) in b.receipts
    ensures b.Admits(q, e) ==> b.After(q, e).receipts == b.receipts + if q.key in b.ledger then [] else [b.Answer(q, e)]
    ensures b.After(q, e).receipts == b.receipts + if b.Dispatches(q) && e.Lands?
            then [Receipt(|b.receipts|, q, e.post, e.error)] else []
  {
    var c := b.After(q, e);
    forall r | r in b.ledger.Values ensures r in c.ledger.Values {
      var k :| k in b.ledger && b.ledger[k] == r;
      assert k in c.ledger && c.ledger[k] == r;
    }
    if b.Admits(q, e) {
      assert q.key in c.ledger && c.ledger[q.key] == b.Answer(q, e);
    }
  }

  lemma NothingChanges(b: Books)
    requires b.Valid()
    ensures Kept(b, b)
  {
    hide Books.Valid;
  }

  lemma TurnContinues(step: PlanStep, t: Turn, features: Features, recorded: set<Receipt>, completed: seq<Receipt>,
      b: Books)
    requires b.Valid()
    ensures var c := TurnOf(step, t, features, recorded, completed, b);
            && Continues(completed, b, c) && |c.completed| <= |completed| + 1
                && (c.advances ==> |c.completed| == |completed| + 1)
            && (c.completed[|completed|..] == Appended(b, c.books) <==> !c.loses && !c.replays)
            && (c.advances ==> c.replays || c.completed[|completed|..] == Appended(b, c.books))
            && (c.replays ==>
                  && |c.completed| == |completed| + 1 && c.completed[|completed|] in b.receipts
                  && Appended(b, c.books) == [])
            && (c.loses ==> !c.advances)
  {
    hide Kept, Withheld, Abandons, Verdict, Notes, Books.Valid, Books.After, Books.Answer, Books.Admits, Misses;
    AfterIsValid(b, RequestOf(step, t), t.event);
    NothingChanges(b);
  }

  lemma TurnAdds(step: PlanStep, t: Turn, features: Features, recorded: set<Receipt>, completed: seq<Receipt>, b: Books)
    requires b.Valid()
    ensures var c := TurnOf(step, t, features, recorded, completed, b);
            && |b.receipts| <= |c.books.receipts| && |completed| <= |c.completed| <= |completed| + 1
            && (c.advances ==> |c.completed| == |completed| + 1)
            && (c.completed[|completed|..] == c.books.receipts[|b.receipts|..] <==> !c.loses && !c.replays)
  {
    hide TurnOf, Books.Valid;
    TurnContinues(step, t, features, recorded, completed, b);
  }

  lemma {:induction false} FlightContinues(steps: seq<PlanStep>, w: World, features: Features, recorded: set<Receipt>,
      completed: seq<Receipt>, b: Books)
    requires |completed| <= StepCount(steps, features) && b.Valid()
    ensures Continues(completed, b, Fly(steps, w, features, recorded, completed, b))
    decreases StepCount(steps, features) - |completed|
  {
    hide TurnOf;
    if |completed| < StepCount(steps, features) {
      var one := TurnOf(steps[|completed|], w.turn(|completed|), features, recorded, completed, b);
      TurnContinues(steps[|completed|], w.turn(|completed|), features, recorded, completed, b);
      if one.advances {
        FlightContinues(steps, w, features, one.recorded, one.completed, one.books);
        ContinuesOn(completed, b, one, Fly(steps, w, features, recorded, completed, b));
      }
    }
  }

  lemma KeptOn(b: Books, mid: Books, c: Books)
    requires Kept(b, mid) && Kept(mid, c)
    ensures Kept(b, c)
  {
    hide Books.Valid;
  }

  lemma CompletedKept(completed: seq<Receipt>, b: Books, c: Books)
    requires Kept(b, c) && forall r :: r in completed ==> r in b.ledger.Values
    ensures forall r :: r in completed ==> r in c.ledger.Values
  {
    hide Books.Valid, StartsAt;
  }

  lemma ContinuesOn(completed: seq<Receipt>, b: Books, one: Course, all: Course)
    requires Continues(completed, b, one) && Continues(one.completed, one.books, all)
    ensures Continues(completed, b, all)
  {
    KeptOn(b, one.books, all.books);
    CompletedKept(one.completed[|completed|..], one.books, all.books);
    hide Kept, Books.Valid;
    assert all.completed[|completed|..] == one.completed[|completed|..] + all.completed[|one.completed|..];
  }

  /**
   * A plan comes back with exactly the receipts it appends, in order, if and only if none of its turns hits one
   * of the guards: no commit fails, no fresh result is abandoned, and no step is answered from the ledger.
   */
  lemma {:induction false} CompletedIsAppended(steps: seq<PlanStep>, w: World, features: Features,
      recorded: set<Receipt>, completed: seq<Receipt>, b: Books)
    requires |completed| <= StepCount(steps, features) && b.Valid()
    ensures var c := Fly(steps, w, features, recorded, completed, b);
            && Continues(completed, b, c)
            && (c.completed[|completed|..] == Appended(b, c.books) <==> !c.loses && !c.replays)
    decreases StepCount(steps, features) - |completed|
  {
    hide TurnOf, Books.Valid;
    FlightContinues(steps, w, features, recorded, completed, b);
    if |completed| < StepCount(steps, features) {
      var one := TurnOf(steps[|completed|], w.turn(|completed|), features, recorded, completed, b);
      TurnContinues(steps[|completed|], w.turn(|completed|), features, recorded, completed, b);
      if one.advances {
        CompletedIsAppended(steps, w, features, one.recorded, one.completed, one.books);
        JoinAppended(completed, b, one, Fly(steps, w, features, recorded, completed, b));
      }
    }
  }

  lemma SameHead<T>(x: T, xs: seq<T>, ys: seq<T>)
    ensures [x] + xs == [x] + ys <==> xs == ys
  {
    if [x] + xs == [x] + ys {
      assert ([x] + xs)[1..] == xs && ([x] + ys)[1..] == ys;
    }
  }

  lemma NewIsNotOld(b: Books, c: Books, x: Receipt, xs: seq<Receipt>)
    requires b.Valid() && c.Valid() && b.receipts <= c.receipts && x in b.receipts
    ensures [x] + xs != Appended(b, c)
  {
    assert ([x] + xs)[0] == x;
    if |Appended(b, c)| > 0 {
      assert Appended(b, c)[0] == c.receipts[|b.receipts|];
    }
  }

  lemma SplitSlice<T>(xs: seq<T>, ys: seq<T>, zs: seq<T>)
    requires xs <= ys <= zs
    ensures zs[|xs|..] == ys[|xs|..] + zs[|ys|..]
  {
  }

  lemma ContinuesParts(completed: seq<Receipt>, b: Books, c: Course)
    requires Continues(completed, b, c)
    ensures b.Valid() && c.books.Valid() && b.receipts <= c.books.receipts && completed <= c.completed
    ensures StartsAt(b, c.books)
  {
    hide Books.Valid, StartsAt;
  }

  lemma JoinAppended(completed: seq<Receipt>, b: Books, one: Course, all: Course)
    requires Continues(completed, b, one) && Continues(one.completed, one.books, all)
    requires |one.completed| == |completed| + 1
    requires one.replays || one.completed[|completed|..] == Appended(b, one.books)
    requires one.replays ==> one.completed[|completed|] in b.receipts && Appended(b, one.books) == []
    ensures Continues(completed, b, all)
    ensures all.completed[|completed|..] == Appended(b, all.books) <==>
            !one.replays && all.completed[|one.completed|..] == Appended(one.books, all.books)
  {
    hide Continues, Books.Valid;
    ContinuesOn(completed, b, one, all);
    ContinuesParts(completed, b, one);
    ContinuesParts(one.completed, one.books, all);
    var x, more, later := one.completed[|completed|], all.completed[|one.completed|..], Appended(one.books, all.books);
    SplitSlice(completed, one.completed, all.completed);
    SplitSlice(b.receipts, one.books.receipts, all.books.receipts);
    assert one.completed[|completed|..] == [x];
    if one.replays {
      NewIsNotOld(b, all.books, x, more);
    } else {
      SameHead(x, more, later);
    }
  }

  // ---------------------------------------------------------------- undisturbed plans

  /** No step asks again for a key the controller has already answered, or for the same key twice. */
  ghost predicate FreshKeys(steps: seq<PlanStep>, used: set<string>) {
    && (forall i :: 0 <= i < |steps| ==> steps[i].key !in used)
    && (forall i, j :: 0 <= i < j < |steps| ==> steps[i].key != steps[j].key)
  }

  /** What has been observed before turn `i`, if the turn before it landed. */
  function Reached(w: World, start: Hash, i: nat): Option<Hash> {
    if i == 0 then Some(start) else if w.turn(i - 1).event.Lands? then Some(w.turn(i - 1).event.post) else None
  }

  predicate SmoothTurn(step: PlanStep, t: Turn, features: Features, first: bool) {
    && !Withheld(step, t, first) && t.event.Lands? && t.event.commits
    && !(features.guarded && (t.diverges || (step.post.Some? && step.post.value != t.event.post))) && !t.wins
        && t.rules.None? && (features.retrodictive ==> t.rejectsRecord.None?)
  }

  /** Nothing goes wrong: every request is fresh, current and committed, and nothing interrupts the plan. */
  ghost predicate Smooth(steps: seq<PlanStep>, w: World, features: Features, b: Books) {
    && !b.faulted && FreshKeys(steps, b.ledger.Keys)
    && forall i :: 0 <= i < StepCount(steps, features) ==>
         SmoothTurn(steps[i], w.turn(i), features, i == 0) && Some(steps[i].expected) == Reached(w, b.observation, i)
  }

  lemma SmoothTurnAdvances(step: PlanStep, t: Turn, features: Features, recorded: set<Receipt>, completed: seq<Receipt>,
      b: Books)
    requires SmoothTurn(step, t, features, completed == [])
    requires !b.faulted && step.key !in b.ledger && step.expected == b.observation
    ensures var c := TurnOf(step, t, features, recorded, completed, b);
            && c.advances && !c.loses && !c.replays && |c.completed| == |completed| + 1
                && c.completed[..|completed|] == completed
            && Executes(c.completed[|completed|], step)
            && !c.books.faulted && c.books.observation == t.event.post
                && c.books.ledger.Keys == b.ledger.Keys + {step.key}
  {
  }

  /** An undisturbed plan executes every step, each by one new receipt. */
  lemma {:induction false} SmoothCourse(steps: seq<PlanStep>, w: World, features: Features, recorded: set<Receipt>,
      completed: seq<Receipt>, start: Books, b: Books)
    requires Smooth(steps, w, features, start) && |completed| <= StepCount(steps, features) && !b.faulted
    requires Some(b.observation) == Reached(w, start.observation, |completed|)
    requires forall i :: |completed| <= i < |steps| ==> steps[i].key !in b.ledger
    requires forall i :: 0 <= i < |completed| ==> Executes(completed[i], steps[i])
    ensures var c := Fly(steps, w, features, recorded, completed, b);
            && c.advances && !c.loses && !c.replays && |c.completed| == StepCount(steps, features)
            && forall i :: 0 <= i < |c.completed| ==> Executes(c.completed[i], steps[i])
    decreases StepCount(steps, features) - |completed|
  {
    hide TurnOf, SmoothTurn, Executes, Smooth, Reached;
    var n := |completed|;
    if n < StepCount(steps, features) {
      SmoothAt(steps, w, features, start, n);
      SmoothTurnAdvances(steps[n], w.turn(n), features, recorded, completed, b);
      var one := TurnOf(steps[n], w.turn(n), features, recorded, completed, b);
      assert forall i :: 0 <= i < n ==> one.completed[i] == one.completed[..n][i];
      SmoothCourse(steps, w, features, one.recorded, one.completed, start, one.books);
    }
  }

  lemma SmoothAt(steps: seq<PlanStep>, w: World, features: Features, start: Books, n: nat)
    requires Smooth(steps, w, features, start) && n < StepCount(steps, features)
    ensures SmoothTurn(steps[n], w.turn(n), features, n == 0)
    ensures Some(steps[n].expected) == Reached(w, start.observation, n)
    ensures w.turn(n).event.Lands? && Reached(w, start.observation, n + 1) == Some(w.turn(n).event.post)
    ensures forall i :: n < i < |steps| ==> steps[i].key != steps[n].key
  {
  }
}
