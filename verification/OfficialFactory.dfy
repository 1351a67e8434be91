// The assignment queue of an official run (packages/arc-agi-3-chatgpt/src/official-factory.ts). The
// factory lock admits one locked body at a time; each body is cut at its awaits, and between the cuts
// only the unlocked approvals and the close request can run.
module OfficialFactory {
  import opened Collections
  import opened Wrappers

  datatype RunState = STARTING | ACTIVE | FAILED | FINALIZED

  datatype Run = Run(assignment: nat, controller: bool, guid: Option<string>, state: RunState)

  datatype Lifecycle = RUNNING | FINALIZING | FINALIZED_RUN | CLOSED

  /** Where the body that holds the factory lock is waiting. */
  datatype Waiting =
    | Nothing
    | ForClose(finishing: string, episode: string)
    | ForLog(episode: string)
    | ForStart(episode: string)
    | ForFinalClose

  /** How starting an environment and building its controller went. */
  datatype Start =
    | StartFails
    | BuildFails(bound: bool)
    | Started(guid: Option<string>)

  /** The record of a starting episode once the environment has answered. */
  ghost function Answered(run: Run, s: Start): Run {
    match s
    case StartFails => run.(state := FAILED)
    case BuildFails(bound) => run.(state := FAILED, controller := bound)
    case Started(guid) => run.(state := ACTIVE, controller := true, guid := guid)
  }

  /** Some episode got assignment `i` and a controller for it. */
  ghost predicate Taken(runs: OrderedMap<string, Run>, i: int) {
    exists e :: e in runs.at && runs.at[e].assignment == i && runs.at[e].controller
  }

  /** Every index below `n` has been taken by an episode that got a controller. */
  ghost predicate Covered(runs: OrderedMap<string, Run>, n: nat) {
    forall i :: 0 <= i < n ==> Taken(runs, i)
  }

  /** Rewriting one run keeps the cover, as long as a run below `n` keeps its assignment and controller. */
  lemma CoveredSet(runs: OrderedMap<string, Run>, e: string, r: Run, n: nat)
    requires Covered(runs, n) && runs.Valid()
    requires e in runs.at && runs.at[e].assignment < n && runs.at[e].controller ==>
             r.assignment == runs.at[e].assignment && r.controller
    ensures Covered(runs.Set(e, r), n) && runs.Set(e, r).Valid()
  {
    var at := runs.SetValues(e, r);
    forall i | 0 <= i < n ensures Taken(runs.Set(e, r), i) {
      assert Taken(runs, i);
      var f :| f in runs.at && runs.at[f].assignment == i && runs.at[f].controller;
      assert f in runs.Set(e, r).at;
    }
  }

  lemma CoveredMore(runs: OrderedMap<string, Run>, e: string, n: nat)
    requires Covered(runs, n) && e in runs.at && runs.at[e].assignment == n && runs.at[e].controller
    ensures Covered(runs, n + 1)
  {
  }

  lemma CoveredLess(runs: OrderedMap<string, Run>, n: nat, m: nat)
    requires Covered(runs, n) && m <= n
    ensures Covered(runs, m)
  {
    hide Taken;
  }

  /** No episode holds an assignment beyond the queue or beyond the next one. */
  ghost predicate HandedOut(runs: OrderedMap<string, Run>, assignments: nat, next: nat) {
    forall e :: e in runs.at ==> runs.at[e].assignment < assignments && runs.at[e].assignment <= next
  }

  ghost predicate AllBelowNext(runs: OrderedMap<string, Run>, next: nat) {
    forall e :: e in runs.at ==> runs.at[e].assignment < next
  }

  /** Only the current episode may be starting or active. */
  ghost predicate OneOpen(runs: OrderedMap<string, Run>, current: Option<string>) {
    forall e :: e in runs.at && runs.at[e].state in {STARTING, ACTIVE} ==> current == Some(e)
  }

  /** All episodes finalized, except those whose controller refused to close. */
  ghost function AllFinal(runs: OrderedMap<string, Run>, refused: set<string>): OrderedMap<string, Run> {
    OrderedMap(runs.keys, map e | e in runs.at :: if e in refused then runs.at[e] else runs.at[e].(state := FINALIZED))
  }

  /** Episode by episode; where the controller refuses to close, the record stays as it is. */
  method FinalizeAll(runs: OrderedMap<string, Run>, refused: set<string>) returns (closed: OrderedMap<string, Run>)
    ensures closed == AllFinal(runs, refused)
  {
    var at, left := runs.at, runs.at.Keys;
    while left != {}
      invariant left <= at.Keys == runs.at.Keys
      invariant forall e :: e in at ==>
                  at[e] == if e in refused || e in left then runs.at[e] else runs.at[e].(state := FINALIZED)
    {
      var e :| e in left;
      left := left - {e};
      if e !in refused { at := at[e := at[e].(state := FINALIZED)]; }
    }
    assert at == AllFinal(runs, refused).at;
    closed := OrderedMap(runs.keys, at);
  }

  lemma AllFinalCovered(runs: OrderedMap<string, Run>, refused: set<string>, n: nat)
    requires Covered(runs, n) && runs.Valid()
    ensures Covered(AllFinal(runs, refused), n) && AllFinal(runs, refused).Valid()
  {
    forall i | 0 <= i < n ensures Taken(AllFinal(runs, refused), i) {
      assert Taken(runs, i);
      var e :| e in runs.at && runs.at[e].assignment == i && runs.at[e].controller;
      assert e in AllFinal(runs, refused).at;
    }
  }

  class Factory {
    const assignments: nat
    var runs: OrderedMap<string, Run>
    var approvedAdvance: set<string>
    var approvedRetry: set<string>
    var current: Option<string>
    var next: nat
    var principal: Option<string>
    var lifecycle: Lifecycle
    var waiting: Waiting
    // Set once the closing body has closed every controller.
    var closed: bool
    // Set once a start failed or a known episode was released: its record stays, its assignment is handed out again.
    ghost var spoiled: bool

    /** The current episode holds the last index handed out, or the next one when it never became active. */
    ghost predicate CurrentFits()
      reads this`runs, this`next, this`current
    {
      match current
      case None => true
      case Some(e) =>
        && e in runs.at && runs.at[e].state != FINALIZED
        && (runs.at[e].state == ACTIVE ==> runs.at[e].controller && runs.at[e].assignment + 1 == next)
        && (runs.at[e].state != ACTIVE ==> runs.at[e].assignment == next)
    }

    ghost predicate WaitingFits()
      reads this`runs, this`current, this`waiting, this`lifecycle, this`next
    {
      match waiting
      case Nothing => current.Some? ==> current.value in runs.at && runs.at[current.value].state != STARTING
      case ForClose(f, e) => current == Some(f) && e !in runs.at && f in runs.at && runs.at[f].state == ACTIVE
      case ForLog(e) => current == None && e !in runs.at && next < assignments
      case ForStart(e) => current == Some(e) && e in runs.at && runs.at[e].state == STARTING
      case ForFinalClose =>
        && lifecycle != RUNNING
        && (current.Some? ==> current.value in runs.at && runs.at[current.value].state != STARTING)
    }

    /** One record for each assignment handed out, and one for a starting episode; a spoiled queue has more. */
    ghost predicate RecordsFit()
      reads this`runs, this`next, this`waiting, this`spoiled
    {
      var records := next + if waiting.ForStart? then 1 else 0;
      if spoiled then |runs.keys| > records else |runs.keys| == records
    }

    ghost predicate Inv()
      reads this
    {
      && RecordsFit()
      && runs.Valid() && Covered(runs, next) && CurrentFits() && WaitingFits()
      && next <= assignments
      && HandedOut(runs, assignments, next)
      && (!closed ==> OneOpen(runs, current))
      && (closed ==> lifecycle != RUNNING && current == None && waiting == Nothing)
      && (forall e :: e in approvedAdvance && current == Some(e) ==> e in runs.at && runs.at[e].state == ACTIVE)
      && (forall e :: e in approvedAdvance ==> e in runs.at)
      && (current.Some? && runs.at[current.value].state == FAILED ==> spoiled)
      && (current.Some? && runs.at[current.value].state == ACTIVE ==> AllBelowNext(runs, next))
    }

    lemma InvParts()
      requires Inv()
      ensures runs.Valid() && Covered(runs, next) && forall e :: e in runs.at ==> runs.at[e].assignment < assignments
    {
    }

    constructor (assignments: nat)
      ensures Inv() && this.assignments == assignments && next == 0 && current == None && runs.at == map[] && !spoiled
      ensures waiting == Nothing && lifecycle == RUNNING && principal == None && !closed && approvedAdvance == {}
      ensures approvedRetry == {}
    {
      this.assignments := assignments;
      runs, approvedAdvance, approvedRetry, current, next := EmptyMap(), {}, {}, None, 0;
      principal, lifecycle, waiting, closed := None, RUNNING, Nothing, false;
      spoiled := false;
    }

    // -------------------------------------------------------------- the factory call

    /** The current episode failed and its retry was approved. */
    predicate Retries()
      reads this
    {
      current.Some? && current.value in runs.at && runs.at[current.value].state == FAILED
          && current.value in approvedRetry
    }

    /** The current episode is over: it was won, or moving on was approved. */
    predicate Advances(won: bool)
      reads this
    {
      && current.Some? && current.value in runs.at && !Retries()
      && ((runs.at[current.value].state == ACTIVE && won) || current.value in approvedAdvance)
    }

    /** Makes room for another episode: a failed one may be retried, an active one closed, or the call is refused. */
    method FinishCurrent(episode: string, won: bool) returns (ok: bool)
      requires Inv() && waiting == Nothing && episode !in runs.at && current.Some?
      modifies this
      ensures Inv() && lifecycle == old(lifecycle) && principal == old(principal) && spoiled == old(spoiled)
      ensures closed == old(closed)
      ensures ok <==> old(Retries() || Advances(won))
      ensures old(Retries()) ==>
                var e := old(current).value;
                && current == None && waiting == Nothing && episode !in runs.at && next == old(runs).at[e].assignment
                && runs == old(runs).Set(e, old(runs).at[e].(state := FINALIZED))
                && approvedRetry == old(approvedRetry) - {e} && approvedAdvance == old(approvedAdvance)
      ensures !old(Retries()) ==>
              runs == old(runs) && current == old(current) && next == old(next) && approvedRetry == old(approvedRetry)
      ensures old(Advances(won)) ==>
                var e := old(current).value;
                && waiting == ForClose(e, episode)
                && approvedAdvance == old(approvedAdvance) - if old(runs).at[e].state == ACTIVE && won then {} else {e}
      ensures !ok ==> waiting == Nothing && approvedAdvance == old(approvedAdvance)
    {
      hide Covered, OrderedMap.Valid;
      var e := current.value;
      var run := runs.at[e];
      if run.state == FAILED && e in approvedRetry {
        CoveredLess(runs, next, run.assignment);
        CoveredSet(runs, e, run.(state := FINALIZED), run.assignment);
        approvedRetry := approvedRetry - {e};
        next := run.assignment;
        runs := runs.Set(e, run.(state := FINALIZED));
        current := None;
        return true;
      }
      // A failed start has no running controller, so only an active episode can have won.
      var phaseWon := run.state == ACTIVE && won;
      if !phaseWon && e !in approvedAdvance { return false; }
      if !phaseWon { approvedAdvance := approvedAdvance - {e}; }
      waiting := ForClose(e, episode);
      ok := true;
    }

    /** The call up to its first await: it finishes the current episode, or fails leaving the queue alone. */
    method BeginCall(episode: string, who: string, won: bool) returns (ok: bool)
      requires Inv() && waiting == Nothing
      modifies this
      ensures Inv() && spoiled == old(spoiled) && closed == old(closed) && lifecycle == old(lifecycle)
      ensures var admitted := old(lifecycle == RUNNING && episode !in runs.at
                && (principal.Some? ==> principal == Some(who)));
              && (ok <==> admitted && old(if current.Some? then Retries() || Advances(won) else next < assignments))
              && principal == (if admitted then Some(who) else old(principal))
      ensures ok ==> waiting == if old(Advances(won)) then ForClose(old(current).value, episode) else ForLog(episode)
      ensures ok && old(Retries()) ==>
                var e := old(current).value;
                current == None && next == old(runs).at[e].assignment
                    && runs == old(runs).Set(e, old(runs).at[e].(state := FINALIZED))
      ensures !(ok && old(Retries())) ==> current == old(current) && runs == old(runs) && next == old(next)
      ensures !ok ==>
              waiting == Nothing && approvedAdvance == old(approvedAdvance) && approvedRetry == old(approvedRetry)
    {
      hide Covered, OrderedMap.Valid, OrderedMap.Set;
      ok := false;
      if lifecycle != RUNNING || episode in runs.at || (principal.Some? && principal != Some(who)) { return; }
      principal := Some(who);
      if current.Some? {
        var finished := FinishCurrent(episode, won);
        if !finished { return; }
        if waiting.ForClose? { return true; }
      }
      if next >= assignments { return; }
      waiting := ForLog(episode);
      ok := true;
    }

    /** The finished controller has closed, or refused to, in which case the episode stays current. */
    method CloseDone(closes: bool) returns (ok: bool)
      requires Inv() && waiting.ForClose?
      modifies this
      ensures Inv() && next == old(next) && spoiled == old(spoiled)
      ensures closes ==>
              current == None && runs == old(runs).Set(old(waiting).finishing,
                    old(runs).at[old(waiting).finishing].(state := FINALIZED))
      ensures !closes ==> runs == old(runs) && current == old(current) && waiting == Nothing
      ensures ok <==> closes && next < assignments
      ensures waiting == if ok then ForLog(old(waiting).episode) else Nothing
    {
      hide Covered, OrderedMap.Valid;
      var f, e := waiting.finishing, waiting.episode;
      waiting := Nothing;
      if !closes { return false; }
      CoveredSet(runs, f, runs.at[f].(state := FINALIZED), next);
      runs := runs.Set(f, runs.at[f].(state := FINALIZED));
      current := None;
      if next >= assignments { return false; }
      waiting := ForLog(e);
      ok := true;
    }

    /** The evidence log exists, so the episode takes the next assignment and becomes current. */
    method LogDone(logged: bool)
      requires Inv() && waiting.ForLog?
      modifies this
      ensures Inv() && next == old(next) && spoiled == old(spoiled) && lifecycle == old(lifecycle)
      ensures closed == old(closed)
      ensures waiting == (if logged then ForStart(old(waiting).episode) else Nothing)
      ensures approvedRetry == old(approvedRetry) && principal == old(principal)
      ensures logged ==>
              runs == old(runs).Set(old(waiting).episode, Run(next, false, None, STARTING))
                  && current == Some(old(waiting).episode)
      ensures !logged ==> runs == old(runs) && current == None
    {
      hide Covered, OrderedMap.Valid;
      var e := waiting.episode;
      waiting := Nothing;
      if !logged { return; }
      CoveredSet(runs, e, Run(next, false, None, STARTING), next);
      runs := runs.Set(e, Run(next, false, None, STARTING));
      current := Some(e);
      waiting := ForStart(e);
    }

    /** The environment answered: the assignment is used up only when the controller exists. */
    method StartDone(s: Start)
      requires Inv() && waiting.ForStart?
      modifies this
      ensures Inv() && current == old(current) && waiting == Nothing && lifecycle == old(lifecycle)
      ensures closed == old(closed)
      ensures spoiled == (old(spoiled) || !s.Started?) && approvedRetry == old(approvedRetry)
      ensures principal == old(principal)
      ensures next == old(next) + if s.Started? then 1 else 0
      ensures var e, run := old(current).value, old(runs).at[old(current).value];
              runs == old(runs).Set(e, Answered(run, s))
    {
      if s.Started? {
        StartSucceeds(s.guid);
      } else {
        StartFailed(if s.BuildFails? then s.bound else runs.at[waiting.episode].controller);
      }
    }

    method StartSucceeds(guid: Option<string>)
      requires Inv() && waiting.ForStart?
      modifies this`runs, this`next, this`waiting
      ensures Inv() && waiting == Nothing && next == old(next) + 1
      ensures runs == old(runs).Set(current.value, Run(old(runs).at[current.value].assignment, true, guid, ACTIVE))
    {
      hide Covered, OrderedMap.Valid;
      var e := waiting.episode;
      var run := Run(runs.at[e].assignment, true, guid, ACTIVE);
      CoveredSet(runs, e, run, next);
      waiting, runs := Nothing, runs.Set(e, run);
      CoveredMore(runs, e, next);
      next := next + 1;
    }

    /** The record of the episode stays, with a controller if one was bound before the failure. */
    method StartFailed(bound: bool)
      requires Inv() && waiting.ForStart?
      modifies this`runs, this`waiting, this`spoiled
      ensures Inv() && waiting == Nothing && spoiled
      ensures var run := old(runs).at[current.value];
              runs == old(runs).Set(current.value, run.(state := FAILED, controller := bound))
    {
      hide Covered, OrderedMap.Valid;
      var e := waiting.episode;
      var run := runs.at[e].(state := FAILED, controller := bound);
      CoveredSet(runs, e, run, next);
      spoiled := true;
      waiting, runs := Nothing, runs.Set(e, run);
    }

    // -------------------------------------------------------------- the other entry points

    /** An episode nobody saw is given back, with its assignment. */
    method Release(episode: string, actions: nat) returns (ok: bool)
      requires Inv() && waiting == Nothing
      modifies this
      ensures Inv() && spoiled == (old(spoiled) || (ok && episode in old(runs).at))
      ensures episode !in old(runs).at ==> ok && runs == old(runs) && current == old(current) && next == old(next)
      ensures episode in old(runs).at ==>
              (ok <==> old(current) == Some(episode) && (old(runs).at[episode].controller ==> actions == 0))
      ensures ok && episode in old(runs).at ==>
                current == None && next == old(runs).at[episode].assignment
                    && runs == old(runs).Set(episode, old(runs).at[episode].(state := FAILED))
      ensures !ok ==> runs == old(runs) && current == old(current) && next == old(next)
    {
      hide Covered, OrderedMap.Valid;
      if episode !in runs.at { return true; }
      var run := runs.at[episode];
      if current != Some(episode) || run.state == FINALIZED || (run.controller && actions != 0) { return false; }
      CoveredSet(runs, episode, run.(state := FAILED), next);
      runs := runs.Set(episode, run.(state := FAILED));
      CoveredLess(runs, next, run.assignment);
      current := None;
      next := run.assignment;
      spoiled := true;
      approvedAdvance, approvedRetry := approvedAdvance - {episode}, approvedRetry - {episode};
      ok := true;
    }

    /** Unlocked: an approval can arrive while a locked body waits. */
    method ApproveAdvance(episode: string) returns (ok: bool)
      requires Inv()
      modifies this`approvedAdvance
      ensures Inv()
      ensures ok <==> lifecycle == RUNNING && current == Some(episode) && runs.at[episode].state == ACTIVE
      ensures approvedAdvance == old(approvedAdvance) + if ok then {episode} else {}
    {
      if lifecycle != RUNNING || current != Some(episode) || !runs.at[episode].controller
          || runs.at[episode].state != ACTIVE {
        return false;
      }
      approvedAdvance := approvedAdvance + {episode};
      ok := true;
    }

    method ApproveRetry(episode: string) returns (ok: bool)
      requires Inv()
      modifies this`approvedRetry
      ensures Inv()
      ensures ok <==> lifecycle == RUNNING && current == Some(episode) && runs.at[episode].state == FAILED
      ensures approvedRetry == old(approvedRetry) + if ok then {episode} else {}
    {
      if lifecycle != RUNNING || current != Some(episode) || runs.at[episode].state != FAILED { return false; }
      approvedRetry := approvedRetry + {episode};
      ok := true;
    }

    /** Unlocked: from here on no new call, approval or retry is admitted. */
    method RequestClose()
      requires Inv()
      modifies this`lifecycle
      ensures Inv() && lifecycle != RUNNING
    {
      if lifecycle == RUNNING { lifecycle := FINALIZING; }
    }

    method BeginFinalClose()
      requires Inv() && lifecycle != RUNNING && waiting == Nothing && !closed
      modifies this`waiting
      ensures Inv() && waiting == ForFinalClose
    {
      waiting := ForFinalClose;
    }

    /** Every controller has been closed; those that refused keep their state. */
    method FinalCloseDone(refused: set<string>)
      requires Inv() && waiting == ForFinalClose
      modifies this
      ensures Inv() && closed && current == None && next == old(next) && spoiled == old(spoiled)
      ensures lifecycle == if refused == {} then FINALIZED_RUN else old(lifecycle)
      ensures runs == AllFinal(old(runs), refused)
    {
      hide Covered, OrderedMap.Valid;
      AllFinalCovered(runs, refused, next);
      runs := FinalizeAll(runs, refused);
      current := None;
      waiting := Nothing;
      closed := true;
      if refused == {} { lifecycle := FINALIZED_RUN; }
    }
  }

  // ---------------------------------------------------------------- the scorecard

  datatype RawRun = MalformedRun | RawRun(guid: string, actions: int, resets: int)

  datatype RawEnvironment = MalformedEnvironment | RawEnvironment(runs: seq<RawRun>)

  datatype OfficialRun = OfficialRun(guid: string, actions: nat, resets: nat)

  /** `gates` stands for the score, mode, game and level totals, which concern single numbers. */
  datatype Scorecard = Scorecard(environments: seq<RawEnvironment>, totalActions: int, gates: bool)

  const MAX_GUID: nat := 2048
  const MAX_SAFE: nat := 0x1F_FFFF_FFFF_FFFF

  predicate Control(c: char) {
    c as int < 32
  }

  /** Safe counts, no more resets than actions, and a guid of 1 to 2048 printable characters. */
  ghost predicate WellFormedRun(r: RawRun) {
    && r.RawRun? && 0 <= r.resets <= r.actions < 9007199254740992 && 1 <= |r.guid| <= 2048
    && forall c :: c in r.guid ==> c as int >= 32
  }

  lemma GuidIsPrintable(guid: string)
    ensures (forall i :: 0 <= i < |guid| ==> !Control(guid[i])) <==> forall c :: c in guid ==> c as int >= 32
  {
    forall c | c in guid && !(c as int >= 32) ensures exists i :: 0 <= i < |guid| && Control(guid[i]) {
      var i :| 0 <= i < |guid| && guid[i] == c;
      assert Control(guid[i]);
    }
    forall i | 0 <= i < |guid| && Control(guid[i]) ensures exists c :: c in guid && !(c as int >= 32) {
      assert guid[i] in guid;
    }
  }

  ghost function Parsed(r: RawRun): OfficialRun
    requires WellFormedRun(r)
  {
    OfficialRun(r.guid, r.actions, r.resets)
  }

  ghost predicate WellFormedEnvironment(e: RawEnvironment) {
    e.RawEnvironment? && e.runs != [] && forall i :: 0 <= i < |e.runs| ==> WellFormedRun(e.runs[i])
  }

  /** The number of runs listed, well formed or not. */
  ghost function RunCount(environments: seq<RawEnvironment>): nat {
    if environments == [] then 0
    else
      var e := environments[|environments| - 1];
      RunCount(environments[..|environments| - 1]) + if e.RawEnvironment? then |e.runs| else 0
  }

  /** The well-formed ones among some listed runs. */
  ghost function ReadRuns(raw: seq<RawRun>): (runs: seq<OfficialRun>)
    ensures |runs| <= |raw|
    ensures |runs| == |raw| <==> forall i :: 0 <= i < |raw| ==> WellFormedRun(raw[i])
  {
    if raw == [] then [] else
    var last := raw[|raw| - 1];
    ReadRuns(raw[..|raw| - 1]) + if WellFormedRun(last) then [Parsed(last)] else []
  }

  ghost function AllRuns(environments: seq<RawEnvironment>): (runs: seq<OfficialRun>)
    ensures |runs| <= RunCount(environments)
  {
    if environments == [] then [] else
    var e := environments[|environments| - 1];
    AllRuns(environments[..|environments| - 1]) + if e.RawEnvironment? then ReadRuns(e.runs) else []
  }

  /** Reads the runs off a scorecard; `valid` says nothing was malformed or empty. */
  method ScorecardRuns(environments: seq<RawEnvironment>) returns (runs: seq<OfficialRun>, rawRuns: nat, valid: bool)
    ensures runs == AllRuns(environments) && rawRuns == RunCount(environments)
    ensures valid <==> forall i :: 0 <= i < |environments| ==> WellFormedEnvironment(environments[i])
    ensures valid ==> |runs| == rawRuns
  {
    hide WellFormedRun, ReadRuns;
    runs, rawRuns, valid := [], 0, true;
    for i := 0 to |environments|
      invariant runs == AllRuns(environments[..i]) && rawRuns == RunCount(environments[..i])
      invariant valid <==> forall j :: 0 <= j < i ==> WellFormedEnvironment(environments[j])
      invariant valid ==> |runs| == rawRuns
    {
      var e := environments[i];
      assert environments[..i + 1][..i] == environments[..i];
      if e.MalformedEnvironment? {
        valid := false;
      } else {
        var parsed, fine := ReadEnvironment(e.runs);
        runs, rawRuns, valid := runs + parsed, rawRuns + |e.runs|, valid && fine && e.runs != [];
      }
    }
    assert environments[..|environments|] == environments;
  }

  method ReadEnvironment(raw: seq<RawRun>) returns (runs: seq<OfficialRun>, fine: bool)
    ensures runs == ReadRuns(raw)
    ensures fine <==> forall i :: 0 <= i < |raw| ==> WellFormedRun(raw[i])
  {
    runs, fine := [], true;
    for i := 0 to |raw|
      invariant runs == ReadRuns(raw[..i])
      invariant fine <==> forall j :: 0 <= j < i ==> WellFormedRun(raw[j])
    {
      assert raw[..i + 1][..i] == raw[..i];
      var r := raw[i];
      if r.RawRun? { GuidIsPrintable(r.guid); }
      if r.RawRun? && 0 <= r.actions <= MAX_SAFE && 0 <= r.resets <= MAX_SAFE && r.actions >= r.resets
          && r.guid != [] && |r.guid| <= MAX_GUID && (forall j :: 0 <= j < |r.guid| ==> !Control(r.guid[j])) {
        runs := runs + [OfficialRun(r.guid, r.actions, r.resets)];
      } else {
        fine := false;
      }
    }
    assert raw[..|raw|] == raw;
  }

  ghost function SumActions(official: seq<OfficialRun>): nat {
    if official == [] then 0 else official[0].actions + SumActions(official[1..])
  }

  /** The actions of all official runs added up. */
  method TotalActions(official: seq<OfficialRun>) returns (total: nat)
    ensures total == SumActions(official)
  {
    total := 0;
    for i := 0 to |official|
      invariant total + SumActions(official[i..]) == SumActions(official)
    {
      assert official[i..][1..] == official[i + 1..];
      total := total + official[i].actions;
    }
  }

  /** As many runs as non-empty environments: one run in each. */
  lemma {:induction false} OneRunEach(environments: seq<RawEnvironment>)
    requires forall i :: 0 <= i < |environments| ==> environments[i].RawEnvironment? && environments[i].runs != []
    ensures RunCount(environments) >= |environments|
    ensures RunCount(environments) == |environments| <==>
            forall i :: 0 <= i < |environments| ==> |environments[i].runs| == 1
  {
    if environments != [] {
      OneRunEach(environments[..|environments| - 1]);
    }
  }

  // ---------------------------------------------------------------- acceptance

  /** The official runs carrying a guid. */
  function Matches(official: seq<OfficialRun>, guid: string): seq<OfficialRun> {
    if official == [] then []
    else (if official[0].guid == guid then [official[0]] else []) + Matches(official[1..], guid)
  }

  /** They are those official runs, each as often as it is listed. */
  lemma {:induction false} MatchesAreThose(official: seq<OfficialRun>, guid: string, r: OfficialRun)
    ensures multiset(Matches(official, guid))[r] == if r.guid == guid then multiset(official)[r] else 0
  {
    if official != [] {
      MatchesAreThose(official[1..], guid, r);
      assert official == [official[0]] + official[1..];
    }
  }

  ghost predicate OneAssignmentEach(runs: OrderedMap<string, Run>, n: nat) {
    && |runs.keys| == n
    && (forall e :: e in runs.at ==> runs.at[e].controller && runs.at[e].assignment < n)
    && (forall i :: 0 <= i < n ==> Taken(runs, i))
    && (forall e, f :: e in runs.at && f in runs.at && runs.at[e].assignment == runs.at[f].assignment ==> e == f)
  }

  /** Every episode owns one official run and no two share one; with equal numbers, every official run is owned. */
  ghost predicate OneOfficialRunEach(runs: OrderedMap<string, Run>, official: seq<OfficialRun>) {
    && |official| == |runs.keys|
    && (forall e :: e in runs.at ==> runs.at[e].guid.Some? && |Matches(official, runs.at[e].guid.value)| == 1)
    && (forall e, f :: e in runs.at && f in runs.at && runs.at[e].guid == runs.at[f].guid ==> e == f)
    && (forall i :: 0 <= i < |official| ==> Owned(runs, official[i].guid))
    && (forall i, j :: 0 <= i < j < |official| ==> official[i].guid != official[j].guid)
  }

  ghost predicate Owned(runs: OrderedMap<string, Run>, guid: string) {
    exists e :: e in runs.at && runs.at[e].guid == Some(guid)
  }

  lemma {:induction false} MatchesMember(official: seq<OfficialRun>, guid: string)
    requires Matches(official, guid) != []
    ensures exists i :: 0 <= i < |official| && official[i].guid == guid
  {
    if official[0].guid != guid {
      MatchesMember(official[1..], guid);
      var i :| 0 <= i < |official[1..]| && official[1..][i].guid == guid;
      assert official[i + 1].guid == guid;
    }
  }

  function Guids(official: seq<OfficialRun>): (gs: seq<string>)
    ensures |gs| == |official|
  {
    seq(|official|, i requires 0 <= i < |official| => official[i].guid)
  }

  function RunGuids(runs: OrderedMap<string, Run>): (gs: seq<string>)
    requires runs.Valid() && forall e :: e in runs.at ==> runs.at[e].guid.Some?
    ensures |gs| == |runs.keys|
  {
    seq(|runs.keys|, i requires 0
          <= i < |runs.keys| => assert runs.keys[i] in Elements(runs.keys); runs.at[runs.keys[i]].guid.value)
  }

  function RunAssignments(runs: OrderedMap<string, Run>): (taken: seq<int>)
    requires runs.Valid()
    ensures |taken| == |runs.keys|
  {
    seq(|runs.keys|, i requires 0
          <= i < |runs.keys| => assert runs.keys[i] in Elements(runs.keys); runs.at[runs.keys[i]].assignment)
  }

  /** Enough episodes to cover the queue and no more: each assignment has exactly one. */
  lemma CoverIsBijection(runs: OrderedMap<string, Run>, n: nat)
    requires runs.Valid() && Covered(runs, n) && |runs.keys| == n
    requires forall e :: e in runs.at ==> runs.at[e].controller && runs.at[e].assignment < n
    ensures OneAssignmentEach(runs, n)
  {
    var taken := RunAssignments(runs);
    forall i | 0 <= i < n ensures i in taken {
      assert Taken(runs, i);
      var e :| e in runs.at && runs.at[e].assignment == i && runs.at[e].controller;
      assert e in Elements(runs.keys);
      var k :| 0 <= k < |runs.keys| && runs.keys[k] == e;
      assert taken[k] == i;
    }
    AllBelow(taken, n);
    forall e, f | e in runs.at && f in runs.at && runs.at[e].assignment == runs.at[f].assignment ensures e == f {
      assert e in Elements(runs.keys) && f in Elements(runs.keys);
      var k :| 0 <= k < |runs.keys| && runs.keys[k] == e;
      var m :| 0 <= m < |runs.keys| && runs.keys[m] == f;
      assert taken[k] == taken[m];
    }
  }

  /** `n` values that include all of 0..n-1 are pairwise different. */
  lemma AllBelow(xs: seq<int>, n: nat)
    requires |xs| == n && forall i :: 0 <= i < n ==> i in xs
    ensures Distinct(xs)
  {
    var range := seq(n, i => i);
    assert Distinct(range);
    forall x | x in range ensures x in xs {}
    CoveringIsPermutation(range, xs);
  }

  lemma RunGuidsAreDistinct(runs: OrderedMap<string, Run>)
    requires runs.Valid() && forall e :: e in runs.at ==> runs.at[e].guid.Some?
    requires forall e, f :: e in runs.at && f in runs.at && runs.at[e].guid == runs.at[f].guid ==> e == f
    ensures Distinct(RunGuids(runs))
  {
    var ours := RunGuids(runs);
    forall k, m | 0 <= k < m < |ours| ensures ours[k] != ours[m] {
      assert runs.keys[k] in Elements(runs.keys) && runs.keys[m] in Elements(runs.keys);
    }
  }

  lemma RunGuidIsListed(runs: OrderedMap<string, Run>, official: seq<OfficialRun>, g: string)
    requires runs.Valid() && forall e :: e in runs.at ==>
             runs.at[e].guid.Some? && |Matches(official, runs.at[e].guid.value)| == 1
    requires g in RunGuids(runs)
    ensures g in Guids(official)
  {
    hide Matches;
    var k :| 0 <= k < |runs.keys| && RunGuids(runs)[k] == g;
    assert runs.keys[k] in Elements(runs.keys);
    MatchesMember(official, g);
    var i :| 0 <= i < |official| && official[i].guid == g;
    assert Guids(official)[i] == g;
  }

  lemma RunGuidIsOwned(runs: OrderedMap<string, Run>, g: string)
    requires runs.Valid() && (forall e :: e in runs.at ==> runs.at[e].guid.Some?) && g in RunGuids(runs)
    ensures Owned(runs, g)
  {
    var k :| 0 <= k < |runs.keys| && RunGuids(runs)[k] == g;
    assert runs.keys[k] in Elements(runs.keys);
  }

  /** Distinct guids of all episodes, each found among as many official runs: both lists are the same up to order. */
  lemma GuidsAreBijective(runs: OrderedMap<string, Run>, official: seq<OfficialRun>)
    requires runs.Valid() && |official| == |runs.keys|
    requires forall e :: e in runs.at ==> runs.at[e].guid.Some? && |Matches(official, runs.at[e].guid.value)| == 1
    requires forall e, f :: e in runs.at && f in runs.at && runs.at[e].guid == runs.at[f].guid ==> e == f
    ensures OneOfficialRunEach(runs, official)
  {
    hide Matches, RunGuids, Owned, Elements, OrderedMap.Valid;
    var ours, theirs := RunGuids(runs), Guids(official);
    RunGuidsAreDistinct(runs);
    forall g | g in ours ensures g in theirs {
      RunGuidIsListed(runs, official, g);
    }
    CoveringIsPermutation(ours, theirs);
    forall i | 0 <= i < |official| ensures Owned(runs, official[i].guid) {
      assert theirs[i] in multiset(ours);
      RunGuidIsOwned(runs, theirs[i]);
    }
    forall i, j | 0 <= i < j < |official| ensures official[i].guid != official[j].guid {
      assert theirs[i] != theirs[j];
    }
  }

  datatype Evidence = Evidence(accepted: bool, episodes: nat)

  /** Per episode: whether its journal, receipts, anchor and attestation reconcile with the matched official run. */
  type Judge = (string, OfficialRun) -> bool

  /**
   * Assignments, episodes, official runs and environments correspond one to one, every episode reconciles with its
   * official run, and the totals are right.
   */
  ghost predicate Reconciled(f: Factory, scorecard: Scorecard, judge: Judge, expected: nat)
    reads f
  {
    var official := AllRuns(scorecard.environments);
    && scorecard.gates && scorecard.totalActions == SumActions(official)
    && |scorecard.environments| == expected
    && (forall i :: 0 <= i < expected ==>
          WellFormedEnvironment(scorecard.environments[i]) && |scorecard.environments[i].runs| == 1)
    && f.next == expected && OneAssignmentEach(f.runs, expected) && OneOfficialRunEach(f.runs, official)
    && forall e :: e in f.runs.at ==> Judged(f.runs, e, official, judge)
  }

  /** Evidence is accepted exactly when everything reconciles. */
  method FinalizeEvidence(f: Factory, scorecard: Scorecard, judge: Judge, expected: nat) returns (evidence: Evidence)
    requires f.Inv() && f.assignments == expected
    ensures evidence.accepted <==> Reconciled(f, scorecard, judge, expected)
  {
    hide Matches, Covered, OrderedMap.Valid, OneAssignmentEach, OneOfficialRunEach, Judged, AllRuns, RunCount,
        SumActions, WellFormedEnvironment,
      Factory.Inv;
    f.InvParts();
    var runs := f.runs;
    var official, rawRuns, valid := ScorecardRuns(scorecard.environments);
    var failed := !valid;
    var claimed: set<string> := {};
    var episodes: nat := 0;
    for k := 0 to |runs.keys|
      invariant !failed <==> valid && PassesUpTo(runs, k, official, judge)
      invariant episodes <= k && (!failed ==> episodes == k)
      invariant !failed ==> forall g :: g in claimed <==> ClaimedUpTo(runs, k, g)
    {
      KeyHasRun(runs, k);
      var e := runs.keys[k];
      var run := runs.at[e];
      PassesStep(runs, k, official, judge);
      if !run.controller {
        NoController(runs, e, official, judge);
        failed := true;
      } else {
        episodes := episodes + 1;
        var matches := if run.guid.Some? then Matches(official, run.guid.value) else [];
        JudgedIs(runs, e, official, judge);
        if |matches| == 1 && run.guid.value !in claimed && judge(e, matches[0]) {
          claimed := claimed + {run.guid.value};
        } else {
          failed := true;
        }
      }
    }
    var total := TotalActions(official);
    if !scorecard.gates || scorecard.totalActions != total { failed := true; }
    if f.assignments != expected || f.next != expected || episodes != expected || |scorecard.environments| != expected
       || rawRuns != expected || |official| != expected {
      failed := true;
    }
    evidence := Evidence(!failed, episodes);
    ReconciledIs(f, scorecard, judge, expected, official);
  }

  /** Evidence is never accepted of a spoiled queue; nothing unspoils one, since every step keeps `spoiled`. */
  lemma SpoiledRulesOutAcceptance(f: Factory, scorecard: Scorecard, judge: Judge, expected: nat)
    requires f.Inv() && f.spoiled
    ensures !Reconciled(f, scorecard, judge, expected)
  {
    hide AllRuns, SumActions, OneOfficialRunEach, Matches, Taken, Covered;
  }

  /** A starting episode aside, every episode has a controller and an assignment of its own below `n`. */
  ghost predicate Spotless(runs: OrderedMap<string, Run>, n: nat, starting: Option<string>) {
    && |runs.keys| == n + (if starting.Some? then 1 else 0)
    && (forall e :: e in runs.at && starting != Some(e) ==> runs.at[e].controller && runs.at[e].assignment < n)
    && (forall e, f :: e in runs.at && f in runs.at && runs.at[e].assignment == runs.at[f].assignment ==> e == f)
  }

  /** `n` values that include all of 0..n-1 are those values. */
  lemma OnlyBelow(xs: seq<int>, n: nat)
    requires |xs| == n && forall i :: 0 <= i < n ==> i in xs
    ensures Distinct(xs) && forall x :: x in xs ==> 0 <= x < n
  {
    AllBelow(xs, n);
    var range := seq(n, i => i);
    forall x | x in range ensures x in xs {}
    CoveringIsPermutation(range, xs);
    forall x | x in xs ensures 0 <= x < n {
      assert x in multiset(xs) && x in multiset(range);
      assert x in range;
    }
  }

  lemma AssignmentIsListed(runs: OrderedMap<string, Run>, e: string)
    requires runs.Valid() && e in runs.at
    ensures exists k :: 0 <= k < |runs.keys| && runs.keys[k] == e && RunAssignments(runs)[k] == runs.at[e].assignment
  {
    assert e in Elements(runs.keys);
    var k :| 0 <= k < |runs.keys| && runs.keys[k] == e;
    assert RunAssignments(runs)[k] == runs.at[e].assignment;
  }

  ghost predicate Held(runs: OrderedMap<string, Run>, i: int) {
    exists e :: e in runs.at && runs.at[e].assignment == i
  }

  /** As many episodes as assignments, and every assignment held: no two episodes hold the same. */
  lemma AssignmentsAreOwn(runs: OrderedMap<string, Run>, n: nat)
    requires runs.Valid() && |runs.keys| == n && forall i :: 0 <= i < n ==> Held(runs, i)
    ensures forall e :: e in runs.at ==> runs.at[e].assignment < n
    ensures forall e, f :: e in runs.at && f in runs.at && runs.at[e].assignment == runs.at[f].assignment ==> e == f
  {
    hide OrderedMap.Valid;
    var taken := RunAssignments(runs);
    forall i | 0 <= i < n ensures i in taken {
      assert Held(runs, i);
      var e :| e in runs.at && runs.at[e].assignment == i;
      AssignmentIsListed(runs, e);
    }
    OnlyBelow(taken, n);
    forall e | e in runs.at ensures runs.at[e].assignment < n {
      AssignmentIsListed(runs, e);
      var k :| 0 <= k < |runs.keys| && runs.keys[k] == e && taken[k] == runs.at[e].assignment;
      assert taken[k] in taken;
    }
    forall e, f | e in runs.at && f in runs.at && runs.at[e].assignment == runs.at[f].assignment ensures e == f {
      AssignmentIsListed(runs, e);
      AssignmentIsListed(runs, f);
      var k :| 0 <= k < |runs.keys| && runs.keys[k] == e && taken[k] == runs.at[e].assignment;
      var m :| 0 <= m < |runs.keys| && runs.keys[m] == f && taken[m] == runs.at[f].assignment;
    }
  }

  lemma CoverIsSpotless(runs: OrderedMap<string, Run>, n: nat, starting: Option<string>)
    requires runs.Valid() && Covered(runs, n) && |runs.keys| == n + if starting.Some? then 1 else 0
    requires starting.Some? ==> starting.value in runs.at && runs.at[starting.value].assignment == n
    ensures Spotless(runs, n, starting)
  {
    hide OrderedMap.Valid;
    forall i | 0 <= i < |runs.keys| ensures Held(runs, i) {
      if i < n {
        assert Taken(runs, i);
      } else {
        assert runs.at[starting.value].assignment == i;
      }
    }
    AssignmentsAreOwn(runs, |runs.keys|);
    forall e | e in runs.at && starting != Some(e) ensures runs.at[e].controller && runs.at[e].assignment < n {
      assert Taken(runs, runs.at[e].assignment);
    }
  }

  function StartingEpisode(waiting: Waiting): Option<string> {
    if waiting.ForStart? then Some(waiting.episode) else None
  }

  /** A queue is unspoiled exactly while its episodes and the assignments handed out correspond one to one. */
  lemma UnspoiledIsOneToOne(f: Factory)
    requires f.Inv()
    ensures !f.spoiled <==> Spotless(f.runs, f.next, StartingEpisode(f.waiting))
  {
    hide Covered, OrderedMap.Valid;
    if !f.spoiled {
      CoverIsSpotless(f.runs, f.next, StartingEpisode(f.waiting));
    }
  }

  /** So when the last assignment has been handed out, acceptance can still be had exactly if the queue is unspoiled. */
  lemma CompleteQueue(f: Factory, expected: nat)
    requires f.Inv() && f.assignments == expected == f.next
    ensures OneAssignmentEach(f.runs, expected) <==> !f.spoiled
  {
    hide Taken, OrderedMap.Valid;
    UnspoiledIsOneToOne(f);
  }

  /** One call of the factory that nothing stands in the way of, up to the answer of the environment. */
  method Launch(f: Factory, episode: string, who: string, s: Start)
    requires f.Inv() && f.waiting == Nothing && f.lifecycle == RUNNING && episode !in f.runs.at
    requires f.principal.Some? ==> f.principal == Some(who)
    requires if f.current.Some? then f.Retries() else f.next < f.assignments
    modifies f
    ensures f.Inv() && f.waiting == Nothing && f.lifecycle == RUNNING && f.closed == old(f.closed)
    ensures f.principal == Some(who)
    ensures f.current == Some(episode) && f.spoiled == (old(f.spoiled) || !s.Started?)
    ensures f.runs.at.Keys == old(f.runs.at.Keys) + {episode}
    ensures var n := if old(f.current).Some? then old(f.runs).at[old(f.current).value].assignment else old(f.next);
            && f.next == n + (if s.Started? then 1 else 0)
            && f.runs.at[episode] == (match s
              case StartFails => Run(n, false, None, FAILED)
              case BuildFails(bound) => Run(n, bound, None, FAILED)
              case Started(guid) => Run(n, true, guid, ACTIVE))
  {
    hide Covered, OrderedMap.Valid;
    assert f.current.Some? ==> f.runs.at[f.current.value].assignment < f.assignments;
    var begun := f.BeginCall(episode, who, false);
    f.LogDone(true);
    f.StartDone(s);
  }

  /** The run is closed, and every controller closes. */
  method CloseAll(f: Factory)
    requires f.Inv() && f.waiting == Nothing && !f.closed && f.lifecycle in {RUNNING, FINALIZING}
    modifies f
    ensures f.Inv() && f.closed && f.lifecycle == FINALIZED_RUN && f.next == old(f.next) && f.spoiled == old(f.spoiled)
    ensures f.runs == AllFinal(old(f.runs), {})
  {
    hide Factory.Inv, AllFinal;
    f.RequestClose();
    f.BeginFinalClose();
    f.FinalCloseDone({});
  }

  /**
   * The failing run: the only assignment fails to start, its retry is approved and succeeds, and the run is
   * closed in good order. No scorecard and no judgement make its evidence acceptable.
   */
  method RetriedRun(scorecard: Scorecard, judge: Judge, guid: string, who: string)
    returns (evidence: Evidence, f: Factory)
    ensures !evidence.accepted && f.Inv() && f.lifecycle == FINALIZED_RUN && f.next == f.assignments == 1
    ensures "second" in f.runs.at && f.runs.at["second"] == Run(0, true, Some(guid), FINALIZED)
  {
    f := new Factory(1);
    hide Factory.Inv, Covered, OrderedMap.Valid, OrderedMap.Set;
    Launch(f, "first", who, StartFails);
    var approved := f.ApproveRetry("first");
    Launch(f, "second", who, Started(Some(guid)));
    CloseAll(f);
    SpoiledRulesOutAcceptance(f, scorecard, judge, 1);
    hide Reconciled;
    evidence := FinalizeEvidence(f, scorecard, judge, 1);
  }

  ghost predicate Judged(runs: OrderedMap<string, Run>, e: string, official: seq<OfficialRun>, judge: Judge) {
    && e in runs.at && runs.at[e].controller && runs.at[e].guid.Some?
    && |Matches(official, runs.at[e].guid.value)| == 1 && judge(e, Matches(official, runs.at[e].guid.value)[0])
  }

  lemma NoController(runs: OrderedMap<string, Run>, e: string, official: seq<OfficialRun>, judge: Judge)
    requires e in runs.at && !runs.at[e].controller
    ensures !Judged(runs, e, official, judge)
  {
  }

  lemma JudgedIs(runs: OrderedMap<string, Run>, e: string, official: seq<OfficialRun>, judge: Judge)
    requires e in runs.at && runs.at[e].controller
    ensures var matches := if runs.at[e].guid.Some? then Matches(official, runs.at[e].guid.value) else [];
            Judged(runs, e, official, judge) <==> |matches| == 1 && judge(e, matches[0])
  {
  }

  lemma KeyHasRun(runs: OrderedMap<string, Run>, k: nat)
    requires runs.Valid() && k < |runs.keys|
    ensures runs.keys[k] in runs.at
  {
    assert runs.keys[k] in Elements(runs.keys);
  }

  ghost predicate SharesGuid(runs: OrderedMap<string, Run>, e: string, f: string) {
    e in runs.at && f in runs.at && runs.at[e].guid == runs.at[f].guid
  }

  /** The first `k` episodes reconcile, each with an official run of its own. */
  ghost predicate PassesUpTo(runs: OrderedMap<string, Run>, k: int, official: seq<OfficialRun>, judge: Judge)
    requires 0 <= k <= |runs.keys|
  {
    && (forall j :: 0 <= j < k ==> Judged(runs, runs.keys[j], official, judge))
    && (forall i, j :: 0 <= i < j < k ==> !SharesGuid(runs, runs.keys[i], runs.keys[j]))
  }

  ghost predicate ClaimedUpTo(runs: OrderedMap<string, Run>, k: int, guid: string)
    requires 0 <= k <= |runs.keys|
  {
    exists j :: 0 <= j < k && runs.keys[j] in runs.at && runs.at[runs.keys[j]].guid == Some(guid)
  }

  lemma PassesStep(runs: OrderedMap<string, Run>, k: nat, official: seq<OfficialRun>, judge: Judge)
    requires k < |runs.keys| && runs.keys[k] in runs.at
    ensures PassesUpTo(runs, k + 1, official, judge) <==>
            && PassesUpTo(runs, k, official, judge) && Judged(runs, runs.keys[k], official, judge)
            && !ClaimedUpTo(runs, k, runs.at[runs.keys[k]].guid.GetOr(""))
    ensures forall g :: ClaimedUpTo(runs, k + 1, g) <==>
            ClaimedUpTo(runs, k, g) || runs.at[runs.keys[k]].guid == Some(g)
  {
    hide Matches;
    forall g ensures ClaimedUpTo(runs, k + 1, g) <==> ClaimedUpTo(runs, k, g) || runs.at[runs.keys[k]].guid == Some(g) {
      ClaimedStep(runs, k, g);
    }
  }

  lemma ClaimedStep(runs: OrderedMap<string, Run>, k: nat, g: string)
    requires k < |runs.keys| && runs.keys[k] in runs.at
    ensures ClaimedUpTo(runs, k + 1, g) <==> ClaimedUpTo(runs, k, g) || runs.at[runs.keys[k]].guid == Some(g)
  {
    if runs.at[runs.keys[k]].guid == Some(g) {
      assert 0 <= k < k + 1 && runs.keys[k] in runs.at && runs.at[runs.keys[k]].guid == Some(g);
    }
  }

  lemma AllPass(runs: OrderedMap<string, Run>, official: seq<OfficialRun>, judge: Judge)
    requires runs.Valid()
    ensures PassesUpTo(runs, |runs.keys|, official, judge) <==>
            && (forall e :: e in runs.at ==> Judged(runs, e, official, judge))
            && (forall e, f :: SharesGuid(runs, e, f) ==> e == f)
  {
    hide Judged;
    forall e | e in runs.at ensures exists j :: 0 <= j < |runs.keys| && runs.keys[j] == e {
      assert e in Elements(runs.keys);
    }
    forall j | 0 <= j < |runs.keys| ensures runs.keys[j] in runs.at {
      KeyHasRun(runs, j);
    }
  }

  lemma JudgedHasRun(runs: OrderedMap<string, Run>, e: string, official: seq<OfficialRun>, judge: Judge)
    requires Judged(runs, e, official, judge)
    ensures e in runs.at && runs.at[e].controller && runs.at[e].guid.Some?
    ensures |Matches(official, runs.at[e].guid.value)| == 1
  {
  }

  /** What the loop and the counts establish is what `Reconciled` says. */
  lemma ReconciledIs(f: Factory, scorecard: Scorecard, judge: Judge, expected: nat, official: seq<OfficialRun>)
    requires f.runs.Valid() && Covered(f.runs, f.next) && official == AllRuns(scorecard.environments)
    requires forall e :: e in f.runs.at ==> f.runs.at[e].assignment < f.assignments
    requires f.assignments == expected
    ensures Reconciled(f, scorecard, judge, expected) <==>
            && (forall i :: 0 <= i < |scorecard.environments| ==> WellFormedEnvironment(scorecard.environments[i]))
            && PassesUpTo(f.runs, |f.runs.keys|, official, judge)
            && scorecard.gates && scorecard.totalActions == SumActions(official)
            && f.next == expected && |f.runs.keys| == expected && |scorecard.environments| == expected
            && RunCount(scorecard.environments) == expected && |official| == expected
  {
    hide Matches, Covered, OrderedMap.Valid, AllRuns, RunCount, SumActions, Judged, Owned;
    AllPass(f.runs, official, judge);
    if (forall i :: 0 <= i < |scorecard.environments| ==> WellFormedEnvironment(scorecard.environments[i])) {
      OneRunEach(scorecard.environments);
    }
    if PassesUpTo(f.runs, |f.runs.keys|, official, judge) {
      forall e | e in f.runs.at
        ensures f.runs.at[e].controller && f.runs.at[e].guid.Some? && |Matches(official, f.runs.at[e].guid.value)| == 1
      {
        JudgedHasRun(f.runs, e, official, judge);
      }
      forall e, g | e in f.runs.at && g in f.runs.at && f.runs.at[e].guid == f.runs.at[g].guid ensures e == g {
        assert SharesGuid(f.runs, e, g);
      }
      if f.next == expected == |f.runs.keys| {
        CoverIsBijection(f.runs, expected);
        if |official| == expected {
          GuidsAreBijective(f.runs, official);
        }
      }
    }
  }
}
