// What a checkpoint of the AVO loop must bind (packages/arc-agi-3/src/avo-loop.ts, with plan-archive.ts
// and world-model.ts), and the verifier that decides it in one pass. Hashes are free terms: citing the
// hash of a receipt, plan, selection or record is citing its value.
module AvoBindings {
  import opened Collections
  import opened Wrappers

  type Hash = string

  /** `post` is the observation the step is to lead to, if its postcondition names one. */
  datatype PlanStep = PlanStep(
    expected: Hash, key: string, action: string, expectation: string, directive: Option<string>, post: Option<Hash>)

  datatype Request = Request(expected: Hash, key: string, action: string, expectation: string,
        directive: Option<string>)

  /** Receipts are numbered, so two receipts of one chain never share a hash. */
  datatype Receipt = Receipt(sequence: nat, request: Request, post: Hash, error: real)

  datatype Draft = Draft(base: Hash, steps: seq<PlanStep>, body: string)

  datatype Candidate = Candidate(draft: Draft, depth: nat)

  datatype Selection = Selection(observation: Hash, offered: seq<Candidate>, eligible: seq<Candidate>,
        selected: Candidate)

  datatype Record = Record(selection: Selection, candidate: Candidate, receipt: Receipt, action: string, error: real)

  datatype Stop = COMPLETED | DIVERGED | ACTION_REJECTED

  datatype Outcome = Outcome(candidate: Candidate, selection: Selection, receipts: seq<Receipt>, records: seq<Record>,
        stop: Stop)

  datatype Archive = Archive(candidates: seq<Candidate>, selections: seq<Selection>, outcomes: seq<Outcome>)

  datatype Checkpoint = Checkpoint(receipts: seq<Receipt>, baseline: nat, head: Option<Receipt>, archive: Archive,
        records: seq<Record>)

  type Count = n: nat | 1 <= n witness 1

  /** `maxOffered` is one when plans are not selected among several. */
  datatype Features = Features(guarded: bool, retrodictive: bool, maxActions: nat, maxSteps: Count, maxOffered: Count) {
    /** How many steps a plan may have. */
    function StepLimit(): Count {
      if guarded then maxSteps else 1
    }
  }

  // ---------------------------------------------------------------- what a checkpoint must bind

  /** All receipts cited by the outcomes, in the order of the outcomes. */
  function Cited(outcomes: seq<Outcome>): seq<Receipt> {
    if outcomes == [] then [] else Cited(outcomes[..|outcomes| - 1]) + outcomes[|outcomes| - 1].receipts
  }

  function CitedRecords(outcomes: seq<Outcome>): seq<Record> {
    if outcomes == [] then [] else CitedRecords(outcomes[..|outcomes| - 1]) + outcomes[|outcomes| - 1].records
  }

  /** The receipt was obtained by executing the step. */
  ghost predicate Executes(r: Receipt, step: PlanStep) {
    r.request.action == step.action && r.request.expected == step.expected
  }

  /** The receipts are those of the first steps of the selected plan. */
  ghost predicate FollowsPlan(receipts: seq<Receipt>, c: Candidate, s: Selection) {
    && |receipts| <= |c.draft.steps|
    && (forall i :: 0 <= i < |receipts| ==> Executes(receipts[i], c.draft.steps[i]))
    && (receipts != [] ==> receipts[0].request.expected == s.observation)
  }

  ghost predicate OutcomeBound(o: Outcome, a: Archive) {
    && o.candidate in a.candidates && o.selection in a.selections
    && o.selection.selected == o.candidate && o.selection.observation == o.candidate.draft.base
    && FollowsPlan(o.receipts, o.candidate, o.selection)
    && (forall k :: 0 <= k < |o.records| ==> RecordOf(o.records[k], o))
  }

  ghost predicate RecordOf(r: Record, o: Outcome) {
    r.selection == o.selection && r.candidate == o.candidate && r.receipt in o.receipts
  }

  ghost predicate RecordBound(r: Record, receipts: seq<Receipt>, a: Archive) {
    && r.receipt in receipts && r.candidate in a.candidates && r.selection in a.selections
    && r.selection.selected == r.candidate && r.candidate in r.selection.eligible
    && r.action == r.receipt.request.action && r.error == r.receipt.error
  }

  ghost predicate BaselineOk(cp: Checkpoint) {
    && cp.baseline <= |cp.receipts|
    && cp.head == if cp.baseline == 0 then None else Some(cp.receipts[cp.baseline - 1])
  }

  /** The outcomes cite the receipts after the baseline, each once and in order, and every record exactly once. */
  ghost predicate Binds(cp: Checkpoint, retrodictive: bool) {
    && BaselineOk(cp)
    && Cited(cp.archive.outcomes) == cp.receipts[cp.baseline..]
    && multiset(CitedRecords(cp.archive.outcomes)) == multiset(cp.records)
    && (forall i :: 0 <= i < |cp.archive.outcomes| ==> OutcomeBound(cp.archive.outcomes[i], cp.archive))
    && (forall i :: 0 <= i < |cp.records| ==> RecordBound(cp.records[i], cp.receipts, cp.archive))
    && (!retrodictive ==> cp.records == [])
  }

  /** What the embedded checkpoint and world model guarantee of themselves. */
  ghost predicate Coherent(cp: Checkpoint) {
    Distinct(cp.receipts) && Distinct(cp.records)
  }

  lemma CitedAppend(outcomes: seq<Outcome>, o: Outcome)
    ensures Cited(outcomes + [o]) == Cited(outcomes) + o.receipts
    ensures CitedRecords(outcomes + [o]) == CitedRecords(outcomes) + o.records
  {
    var all := outcomes + [o];
    assert all[..|outcomes|] == outcomes && all[|outcomes|] == o;
  }

  lemma {:induction false} CitedPrefix(outcomes: seq<Outcome>, k: nat)
    requires k <= |outcomes|
    ensures Cited(outcomes[..k]) <= Cited(outcomes) && CitedRecords(outcomes[..k]) <= CitedRecords(outcomes)
    decreases |outcomes|
  {
    if k < |outcomes| {
      var n := |outcomes| - 1;
      CitedPrefix(outcomes[..n], k);
      assert outcomes[..n][..k] == outcomes[..k];
    } else {
      assert outcomes[..k] == outcomes;
    }
  }

  // ---------------------------------------------------------------- the verifier of checkpoints

  /** One pass over an outcome's receipts, following the running index into the loop's receipts. */
  method VerifyReceipts(o: Outcome, loop: seq<Receipt>, start: nat, cited: set<Receipt>)
    returns (ok: bool, index: nat, all: set<Receipt>)
    requires Distinct(loop) && start <= |loop| && cited == Elements(loop[..start])
    ensures ok <==> FollowsPlan(o.receipts, o.candidate, o.selection) && o.receipts <= loop[start..]
    ensures ok ==> index == start + |o.receipts| <= |loop| && all == Elements(loop[..index])
  {
    index, all := start, cited;
    if |o.receipts| > |o.candidate.draft.steps| { return false, index, all; }
    for i := 0 to |o.receipts|
      invariant index == start + i <= |loop| && all == Elements(loop[..index])
      invariant o.receipts[..i] == loop[start..index]
      invariant FollowsPlan(o.receipts[..i], o.candidate, o.selection)
    {
      var r, step := o.receipts[i], o.candidate.draft.steps[i];
      if r in all || index >= |loop| || r != loop[index]
         || r.request.action != step.action || r.request.expected != step.expected
         || (i == 0 && r.request.expected != o.selection.observation) {
        NotFollowed(o, loop, start, i, all);
        return false, index, all;
      }
      assert loop[..index + 1] == loop[..index] + [loop[index]];
      all := all + {r};
      index := index + 1;
      assert o.receipts[..i + 1] == o.receipts[..i] + [r] && loop[start..index] == loop[start..index - 1] + [r];
    }
    assert o.receipts[..|o.receipts|] == o.receipts;
    assert loop[start..][..|o.receipts|] == loop[start..index];
    ok := true;
  }

  lemma NotFollowed(o: Outcome, loop: seq<Receipt>, start: nat, i: nat, all: set<Receipt>)
    requires Distinct(loop) && i < |o.receipts| <= |o.candidate.draft.steps| && start + i <= |loop|
    requires all == Elements(loop[..start + i])
    requires var r := o.receipts[i];
             || r in all || start + i >= |loop| || r != loop[start + i] || !Executes(r, o.candidate.draft.steps[i])
             || (i == 0 && r.request.expected != o.selection.observation)
    ensures !(FollowsPlan(o.receipts, o.candidate, o.selection) && o.receipts <= loop[start..])
  {
    var r := o.receipts[i];
    if r in all {
      var j :| 0 <= j < start + i && loop[..start + i][j] == r;
      if start + i < |loop| {
        assert loop[j] != loop[start + i];
        assert loop[start..][i] == loop[start + i];
      }
    } else if start + i < |loop| {
      assert loop[start..][i] == loop[start + i];
    }
  }

  /** The records an outcome may still cite: known, its own, and not yet cited. */
  ghost predicate RecordsFit(o: Outcome, known: set<Record>, cited: set<Record>) {
    && (forall k :: 0 <= k < |o.records| ==>
          RecordOf(o.records[k], o) && o.records[k] in known && o.records[k] !in cited)
    && Distinct(o.records)
  }

  method VerifyRecords(o: Outcome, known: set<Record>, cited: set<Record>) returns (ok: bool, all: set<Record>)
    ensures ok <==> RecordsFit(o, known, cited)
    ensures ok ==> all == cited + Elements(o.records)
  {
    all := cited;
    for k := 0 to |o.records|
      invariant forall j :: 0 <= j < k ==> RecordOf(o.records[j], o) && o.records[j] in known && o.records[j] !in cited
      invariant Distinct(o.records[..k]) && all == cited + Elements(o.records[..k])
    {
      var r := o.records[k];
      assert o.records[..k + 1] == o.records[..k] + [r];
      if r !in known || r in all || r.selection != o.selection || r.candidate != o.candidate
          || r.receipt !in o.receipts {
        if r in Elements(o.records[..k]) {
          var j :| 0 <= j < k && o.records[..k][j] == r;
          assert o.records[j] == o.records[k];
        }
        return false, all;
      }
      assert Elements(o.records[..k + 1]) == Elements(o.records[..k]) + {r};
      all := all + {r};
    }
    assert o.records[..|o.records|] == o.records;
    ok := true;
  }

  ghost function Loop(cp: Checkpoint): seq<Receipt>
    requires cp.baseline <= |cp.receipts|
  {
    cp.receipts[cp.baseline..]
  }

  ghost predicate OutcomesBound(cp: Checkpoint, k: int)
    requires 0 <= k <= |cp.archive.outcomes|
  {
    forall i :: 0 <= i < k ==> OutcomeBound(cp.archive.outcomes[i], cp.archive)
  }

  /** The first `k` outcomes pass. */
  ghost predicate PassesSoFar(cp: Checkpoint, k: int)
    requires cp.baseline <= |cp.receipts| && 0 <= k <= |cp.archive.outcomes|
  {
    && Cited(cp.archive.outcomes[..k]) <= Loop(cp)
    && OutcomesBound(cp, k)
    && Distinct(CitedRecords(cp.archive.outcomes[..k]))
    && Elements(CitedRecords(cp.archive.outcomes[..k])) <= Elements(cp.records)
  }

  lemma DistinctPrefix<T(!new)>(xs: seq<T>, ys: seq<T>)
    requires Distinct(ys) && xs <= ys
    ensures Distinct(xs)
  {
    assert forall i :: 0 <= i < |xs| ==> xs[i] == ys[i];
  }

  lemma BindsPasses(cp: Checkpoint, retrodictive: bool, k: nat)
    requires Coherent(cp) && cp.baseline <= |cp.receipts| && k <= |cp.archive.outcomes|
    ensures Binds(cp, retrodictive) ==> PassesSoFar(cp, k)
  {
    hide OutcomeBound, RecordBound, Cited, CitedRecords;
    if Binds(cp, retrodictive) {
      var outcomes := cp.archive.outcomes;
      CitedPrefix(outcomes, k);
      SameBagSameElements(CitedRecords(outcomes), cp.records);
      DistinctPrefix(CitedRecords(outcomes[..k]), CitedRecords(outcomes));
    }
  }

  lemma SameBagSameElements<T(!new)>(xs: seq<T>, ys: seq<T>)
    requires multiset(xs) == multiset(ys) && Distinct(ys)
    ensures Distinct(xs) && Elements(xs) == Elements(ys) && |xs| == |ys|
  {
    assert |multiset(xs)| == |xs| && |multiset(ys)| == |ys|;
    forall x | x in ys ensures x in xs {
      assert x in multiset(ys);
    }
    forall x | x in xs ensures x in ys {
      assert x in multiset(xs);
    }
    CoveringIsPermutation(ys, xs);
  }

  lemma PassesStep(cp: Checkpoint, k: nat, index: nat)
    requires cp.baseline <= |cp.receipts| && k < |cp.archive.outcomes| && PassesSoFar(cp, k)
    requires index == |Cited(cp.archive.outcomes[..k])|
    ensures var o, outcomes := cp.archive.outcomes[k], cp.archive.outcomes;
            && outcomes[..k + 1] == outcomes[..k] + [o] && index <= |Loop(cp)|
            && Elements(CitedRecords(outcomes[..k + 1])) == Elements(CitedRecords(outcomes[..k])) + Elements(o.records)
            && (PassesSoFar(cp, k + 1) <==>
                (OutcomeBound(o, cp.archive) && o.receipts <= Loop(cp)[index..]
                      && RecordsFit(o, Elements(cp.records), Elements(CitedRecords(outcomes[..k])))))
  {
    hide Cited, CitedRecords, FollowsPlan, RecordOf;
    var o, outcomes := cp.archive.outcomes[k], cp.archive.outcomes;
    CitedAppend(outcomes[..k], o);
    assert outcomes[..k + 1] == outcomes[..k] + [o];
    ConcatPrefix(Cited(outcomes[..k]), o.receipts, Loop(cp));
    ConcatDistinct(CitedRecords(outcomes[..k]), o.records);
    ConcatElements(CitedRecords(outcomes[..k]), o.records);
    RecordsFitParts(o, Elements(cp.records), Elements(CitedRecords(outcomes[..k])));
  }

  lemma RecordsFitParts(o: Outcome, known: set<Record>, cited: set<Record>)
    ensures RecordsFit(o, known, cited) <==>
            && (forall k :: 0 <= k < |o.records| ==> RecordOf(o.records[k], o))
            && Distinct(o.records) && Elements(o.records) <= known && Elements(o.records) * cited == {}
  {
    hide RecordOf, Distinct;
    forall k | 0 <= k < |o.records| ensures o.records[k] in Elements(o.records) {}
    if Elements(o.records) * cited == {} {
      forall r | r in Elements(o.records) ensures r !in cited {
        assert r in cited ==> r in Elements(o.records) * cited;
      }
    }
  }

  lemma ConcatPrefix<T>(xs: seq<T>, ys: seq<T>, all: seq<T>)
    requires xs <= all
    ensures xs + ys <= all <==> ys <= all[|xs|..]
  {
    if ys <= all[|xs|..] {
      assert all == xs + all[|xs|..];
    }
    if xs + ys <= all {
      assert all[|xs|..][..|ys|] == all[..|xs| + |ys|][|xs|..];
    }
  }

  lemma Disjoint<T(!new)>(a: set<T>, b: set<T>, x: T, y: T)
    requires a * b == {} && x in a && y in b
    ensures x != y
  {
    assert x !in a * b;
  }

  lemma ConcatDistinct<T(!new)>(xs: seq<T>, ys: seq<T>)
    requires Distinct(xs)
    ensures Distinct(xs + ys) <==> Distinct(ys) && Elements(ys) * Elements(xs) == {}
  {
    var all := xs + ys;
    if Distinct(all) {
      forall y | y in ys ensures y !in xs {
        var j :| 0 <= j < |ys| && ys[j] == y;
        assert all[|xs| + j] == y;
        forall i | 0 <= i < |xs| ensures xs[i] != y {
          assert all[i] != all[|xs| + j];
        }
      }
      forall i, j | 0 <= i < j < |ys| ensures ys[i] != ys[j] {
        assert all[|xs| + i] != all[|xs| + j];
      }
    }
    if Distinct(ys) && Elements(ys) * Elements(xs) == {} {
      forall i, j | 0 <= i < j < |all| ensures all[i] != all[j] {
        if i < |xs| <= j {
          Disjoint(Elements(ys), Elements(xs), all[j], all[i]);
        }
      }
    }
  }

  lemma ConcatElements<T>(xs: seq<T>, ys: seq<T>)
    ensures Elements(xs + ys) == Elements(xs) + Elements(ys)
  {
  }

  method VerifyOutcome(o: Outcome, a: Archive, loop: seq<Receipt>, start: nat, cited: set<Receipt>, known: set<Record>,
      citedRecords: set<Record>)
    returns (ok: bool, index: nat, all: set<Receipt>, allRecords: set<Record>)
    requires Distinct(loop) && start <= |loop| && cited == Elements(loop[..start])
    ensures ok <==> OutcomeBound(o, a) && o.receipts <= loop[start..] && RecordsFit(o, known, citedRecords)
    ensures ok ==> index == start + |o.receipts| <= |loop| && all == Elements(loop[..index])
    ensures ok ==> allRecords == citedRecords + Elements(o.records)
  {
    hide FollowsPlan, RecordOf, Distinct;
    index, all, allRecords := start, cited, citedRecords;
    if o.candidate !in a.candidates || o.selection !in a.selections || o.selection.selected != o.candidate
       || o.selection.observation != o.candidate.draft.base {
      return false, index, all, allRecords;
    }
    ok, index, all := VerifyReceipts(o, loop, start, cited);
    if !ok { return; }
    ok, allRecords := VerifyRecords(o, known, citedRecords);
  }

  method VerifyWorldRecords(cp: Checkpoint, cited: set<Record>) returns (ok: bool)
    ensures ok <==>
            forall i :: 0 <= i < |cp.records| ==>
                RecordBound(cp.records[i], cp.receipts, cp.archive) && cp.records[i] in cited
  {
    for i := 0 to |cp.records|
      invariant forall j :: 0 <= j < i ==> RecordBound(cp.records[j], cp.receipts, cp.archive) && cp.records[j] in cited
    {
      var r := cp.records[i];
      if r.receipt !in cp.receipts || r.candidate !in cp.archive.candidates || r.selection !in cp.archive.selections
         || r.selection.selected != r.candidate || r.candidate !in r.selection.eligible
         || r.action != r.receipt.request.action || r.error != r.receipt.error || r !in cited {
        return false;
      }
    }
    ok := true;
  }

  /** The one-pass verifier accepts exactly the checkpoints that bind. */
  method VerifyBindings(cp: Checkpoint, retrodictive: bool) returns (ok: bool)
    requires Coherent(cp)
    ensures ok <==> Binds(cp, retrodictive)
  {
    hide OutcomesBound, OutcomeBound, RecordBound, PassesSoFar, Cited, CitedRecords, RecordsFit, Distinct, Elements;
    if cp.baseline > |cp.receipts|
        || cp.head != (if cp.baseline == 0 then None else Some(cp.receipts[cp.baseline - 1])) {
      return false;
    }
    if !retrodictive && cp.records != [] { return false; }
    var loop, outcomes := cp.receipts[cp.baseline..], cp.archive.outcomes;
    var index: nat, cited: set<Receipt>, citedRecords: set<Record> := 0, {}, {};
    LoopIsDistinct(cp);
    NothingCited(cp);
    for k := 0 to |outcomes|
      invariant PassesSoFar(cp, k)
      invariant index == |Cited(outcomes[..k])| <= |loop| && cited == Elements(loop[..index])
      invariant citedRecords == Elements(CitedRecords(outcomes[..k]))
    {
      PassesStep(cp, k, index);
      CitedAppend(outcomes[..k], outcomes[k]);
      var pass, i, all, allRecords :=
          VerifyOutcome(outcomes[k], cp.archive, loop, index, cited, Elements(cp.records), citedRecords);
      if !pass {
        BindsPasses(cp, retrodictive, k + 1);
        return false;
      }
      index, cited, citedRecords := i, all, allRecords;
    }
    assert outcomes[..|outcomes|] == outcomes;
    var world := VerifyWorldRecords(cp, citedRecords);
    ok := world && |citedRecords| == |Elements(cp.records)| && index == |loop|;
    AllPassed(cp, retrodictive);
  }

  lemma LoopIsDistinct(cp: Checkpoint)
    requires Coherent(cp) && cp.baseline <= |cp.receipts|
    ensures Distinct(Loop(cp))
  {
  }

  lemma NothingCited(cp: Checkpoint)
    requires cp.baseline <= |cp.receipts|
    ensures PassesSoFar(cp, 0) && Cited(cp.archive.outcomes[..0]) == []
    ensures Elements(CitedRecords(cp.archive.outcomes[..0])) == {}
    ensures Elements(Loop(cp)[..0]) == {}
  {
  }

  /** When every outcome passes, only the counts and the world model remain. */
  lemma AllPassed(cp: Checkpoint, retrodictive: bool)
    requires Coherent(cp) && BaselineOk(cp) && (!retrodictive ==> cp.records == [])
    requires PassesSoFar(cp, |cp.archive.outcomes|)
    ensures var cited := Elements(CitedRecords(cp.archive.outcomes));
            Binds(cp, retrodictive) <==>
            && (forall i :: 0 <= i < |cp.records| ==>
                  RecordBound(cp.records[i], cp.receipts, cp.archive) && cp.records[i] in cited)
            && |cited| == |Elements(cp.records)|
            && |Cited(cp.archive.outcomes)| == |Loop(cp)|
  {
    hide OutcomeBound, RecordBound, Cited, CitedRecords;
    var outcomes, cited := cp.archive.outcomes, CitedRecords(cp.archive.outcomes);
    assert outcomes[..|outcomes|] == outcomes;
    if Binds(cp, retrodictive) {
      SameBagSameElements(cited, cp.records);
    }
    if forall i :: 0 <= i < |cp.records| ==> cp.records[i] in Elements(cited) {
      assert Elements(cited) == Elements(cp.records);
      DistinctCount(cited);
      DistinctCount(cp.records);
      forall r | r in cited ensures r in cp.records {
        assert r in Elements(cited);
      }
      assert |cited| == |cp.records|;
      CoveringIsPermutation(cited, cp.records);
    }
  }

  /** A citation of a receipt twice, or of one before the baseline, can never be repaired by later outcomes. */
  lemma BadCitationIsForever(cp: Checkpoint, retrodictive: bool, k: nat)
    requires Coherent(cp) && k <= |cp.archive.outcomes| && cp.baseline <= |cp.receipts|
    requires var cited := Cited(cp.archive.outcomes[..k]); !Distinct(cited) || exists r :: r in cited && r !in Loop(cp)
    ensures !Binds(cp, retrodictive)
  {
    hide OutcomeBound, RecordBound, CitedRecords, Cited;
    var cited := Cited(cp.archive.outcomes[..k]);
    CitedPrefix(cp.archive.outcomes, k);
    LoopIsDistinct(cp);
    PrefixInherits(cited, Loop(cp));
  }

  lemma PrefixInherits<T(!new)>(xs: seq<T>, ys: seq<T>)
    requires Distinct(ys)
    ensures xs <= ys ==> Distinct(xs) && forall x :: x in xs ==> x in ys
  {
    if xs <= ys {
      assert ys[..|xs|] == xs;
    }
  }
}
