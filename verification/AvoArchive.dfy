// Loading the plan archive and the world model of a checkpoint (packages/arc-agi-3/src/plan-archive.ts and
// world-model.ts): what is accepted, and what of it a running loop guarantees.
module AvoArchive {
  import opened AvoBindings
  import opened AvoCourse
  import opened Collections
  import opened Wrappers

  method HasRepeats<T(==, !new)>(xs: seq<T>) returns (yes: bool)
    ensures yes <==> !Distinct(xs)
  {
    for i := 0 to |xs|
      invariant Distinct(xs[..i])
    {
      assert xs[..i + 1] == xs[..i] + [xs[i]];
      if xs[i] in xs[..i] {
        var j :| 0 <= j < i && xs[..i][j] == xs[i];
        assert xs[j] == xs[i];
        return true;
      }
    }
    assert xs[..|xs|] == xs;
    yes := false;
  }

  // ---------------------------------------------------------------- what loading accepts

  /** What is offered is in the archive and based where the selection was made, and something eligible was selected. */
  ghost predicate SelectionFiled(s: Selection, candidates: seq<Candidate>, features: Features) {
    && 1 <= |s.offered| <= features.maxOffered && Distinct(s.offered) && Distinct(s.eligible)
    && (forall c :: c in s.offered ==> c in candidates && c.draft.base == s.observation)
    && (forall c :: c in s.eligible ==> c in s.offered)
    && s.selected in s.eligible
  }

  /** How many of the selections offer a candidate. */
  function Offers(selections: seq<Selection>, c: Candidate): nat {
    if selections == [] then 0
    else
      var k := |selections| - 1;
      Offers(selections[..k], c) + if c in selections[k].offered then 1 else 0
  }

  ghost predicate CandidatesFiled(candidates: seq<Candidate>, features: Features) {
    Distinct(candidates) && forall i :: 0 <= i < |candidates| ==> WellPlanned(candidates[i].draft, features)
  }

  ghost predicate SelectionsFiled(a: Archive, features: Features) {
    && Distinct(a.selections)
    && (forall i :: 0 <= i < |a.selections| ==> SelectionFiled(a.selections[i], a.candidates, features))
    && (forall c :: c in a.candidates ==> Offers(a.selections, c) == 1)
  }

  ghost predicate OutcomeFiled(o: Outcome) {
    o.candidate == o.selection.selected && Distinct(o.receipts) && Distinct(o.records)
  }

  /** The first outcomes are those of the first selections. */
  ghost predicate Aligned(a: Archive) {
    && |a.outcomes| <= |a.selections|
    && forall i :: 0 <= i < |a.outcomes| ==> a.outcomes[i].selection == a.selections[i]
  }

  /** Loading accepts an archive when each candidate was offered once and each selection, in order, has its outcome. */
  ghost predicate Loads(a: Archive, features: Features) {
    && CandidatesFiled(a.candidates, features) && SelectionsFiled(a, features)
    && |a.outcomes| == |a.selections| && Aligned(a)
    && forall i :: 0 <= i < |a.outcomes| ==> OutcomeFiled(a.outcomes[i])
  }

  method LoadCandidates(candidates: seq<Candidate>, features: Features) returns (ok: bool)
    ensures ok <==> CandidatesFiled(candidates, features)
  {
    for i := 0 to |candidates|
      invariant forall j :: 0 <= j < i ==> WellPlanned(candidates[j].draft, features)
    {
      var proper := CheckPlan(candidates[i].draft, features);
      if !proper { return false; }
    }
    var twice := HasRepeats(candidates);
    ok := !twice;
  }

  method LoadSelection(s: Selection, candidates: seq<Candidate>, features: Features) returns (ok: bool)
    ensures ok <==> SelectionFiled(s, candidates, features)
  {
    var offeredTwice := HasRepeats(s.offered);
    var eligibleTwice := HasRepeats(s.eligible);
    ok := 1 <= |s.offered| <= features.maxOffered && !offeredTwice && !eligibleTwice && s.selected in s.eligible
          && (forall c :: c in s.offered ==> c in candidates && c.draft.base == s.observation)
          && (forall c :: c in s.eligible ==> c in s.offered);
  }

  /** The selections one by one, counting how often each candidate is offered. */
  method LoadSelections(a: Archive, features: Features) returns (ok: bool)
    ensures ok <==> SelectionsFiled(a, features)
  {
    hide SelectionFiled, Distinct;
    var offers: map<Candidate, nat> := map c | c in a.candidates :: 0;
    for i := 0 to |a.selections|
      invariant forall j :: 0 <= j < i ==> SelectionFiled(a.selections[j], a.candidates, features)
      invariant offers.Keys == Elements(a.candidates)
      invariant forall c :: c in a.candidates ==> offers[c] == Offers(a.selections[..i], c)
    {
      var filed := LoadSelection(a.selections[i], a.candidates, features);
      if !filed { return false; }
      assert a.selections[..i + 1][..i] == a.selections[..i];
      offers := map c | c in a.candidates :: offers[c] + if c in a.selections[i].offered then 1 else 0;
    }
    assert a.selections[..|a.selections|] == a.selections;
    var twice := HasRepeats(a.selections);
    ok := !twice && forall c :: c in a.candidates ==> offers[c] == 1;
  }

  method LoadOutcomes(a: Archive) returns (ok: bool)
    ensures ok <==>
            |a.outcomes| == |a.selections| && Aligned(a) && forall i :: 0 <= i < |a.outcomes| ==>
                OutcomeFiled(a.outcomes[i])
  {
    for i := 0 to |a.outcomes|
      invariant i <= |a.selections| && forall j :: 0 <= j < i ==> a.outcomes[j].selection == a.selections[j]
      invariant forall j :: 0 <= j < i ==> OutcomeFiled(a.outcomes[j])
    {
      var o := a.outcomes[i];
      var receiptTwice := HasRepeats(o.receipts);
      var recordTwice := HasRepeats(o.records);
      if receiptTwice || recordTwice || o.candidate != o.selection.selected || i >= |a.selections|
          || o.selection != a.selections[i] {
        return false;
      }
    }
    ok := |a.outcomes| == |a.selections|;
  }

  /** The loader accepts exactly that. */
  method LoadArchive(a: Archive, features: Features) returns (ok: bool)
    ensures ok <==> Loads(a, features)
  {
    hide CandidatesFiled, SelectionsFiled, Aligned, OutcomeFiled;
    var candidates := LoadCandidates(a.candidates, features);
    if !candidates { return false; }
    var selections := LoadSelections(a, features);
    if !selections { return false; }
    ok := LoadOutcomes(a);
  }

  /** The world model keeps one record per receipt, and accepts no other. */
  ghost predicate OneEach(records: seq<Record>) {
    forall i, j :: 0 <= i < j < |records| ==> records[i].receipt != records[j].receipt
  }

  method LoadRecords(records: seq<Record>) returns (ok: bool)
    ensures ok <==> OneEach(records)
  {
    var known: set<Receipt> := {};
    for i := 0 to |records|
      invariant known == set j | 0 <= j < i :: records[j].receipt
      invariant OneEach(records[..i])
    {
      if records[i].receipt in known { return false; }
      known := known + {records[i].receipt};
    }
    assert records[..|records|] == records;
    ok := true;
  }

  /** The controller's own checkpoint: receipts numbered and chained, and each with its result. */
  method LoadCore(b: Books) returns (ok: bool)
    ensures ok <==> b.Valid() && b.Covers()
  {
    for i := 0 to |b.receipts|
      invariant forall j :: 0 <= j < i ==> b.receipts[j].sequence == j
      invariant forall j :: 0 <= j < i && j > 0 ==> b.receipts[j].request.expected == b.receipts[j - 1].post
    {
      if b.receipts[i].sequence != i
          || (i > 0 && b.receipts[i].request.expected != b.receipts[i - 1].post) { return false; }
    }
    assert forall i :: 0 <= i < |b.receipts| - 1 ==> b.receipts[i + 1].request.expected == b.receipts[i].post;
    ok := (b.receipts == [] || b.observation == b.receipts[|b.receipts| - 1].post)
          && (forall k :: k in b.ledger ==> b.ledger[k] in b.receipts && b.ledger[k].request.key == k)
          && |b.ledger| == |b.receipts|;
  }

  // ---------------------------------------------------------------- what a running loop guarantees

  /** Some selection lacks its outcome: that of its decision was refused. */
  predicate Lacking(a: Archive) {
    |a.outcomes| < |a.selections|
  }

  /** What an archive satisfies between decisions. */
  ghost predicate Filed(a: Archive, features: Features) {
    && CandidatesFiled(a.candidates, features) && SelectionsFiled(a, features)
    && |a.outcomes| <= |a.selections| && (!Lacking(a) ==> Aligned(a))
    && forall i :: 0 <= i < |a.outcomes| ==> OutcomeFiled(a.outcomes[i])
  }

  /** And while the plan of its last selection is under way. */
  ghost predicate Filing(a: Archive, s: Selection, features: Features) {
    && CandidatesFiled(a.candidates, features) && SelectionsFiled(a, features)
    && Lacking(a) && a.selections[|a.selections| - 1] == s
    && (|a.outcomes| + 1 == |a.selections| ==> Aligned(a))
    && forall i :: 0 <= i < |a.outcomes| ==> OutcomeFiled(a.outcomes[i])
  }

  /** So the archive of a loop loads again if and only if no outcome was ever refused. */
  lemma LoadsUnlessLacking(a: Archive, features: Features)
    requires Filed(a, features)
    ensures Loads(a, features) <==> !Lacking(a)
  {
    hide CandidatesFiled, SelectionsFiled, OutcomeFiled;
  }

  lemma EmptyIsFiled(features: Features)
    ensures Filed(Archive([], [], []), features) && !Lacking(Archive([], [], []))
  {
  }

  lemma {:induction false} NeverOffered(selections: seq<Selection>, c: Candidate)
    requires forall i :: 0 <= i < |selections| ==> c !in selections[i].offered
    ensures Offers(selections, c) == 0
    decreases |selections|
  {
    if selections != [] {
      NeverOffered(selections[..|selections| - 1], c);
    }
  }

  lemma OneMoreSelection(selections: seq<Selection>, s: Selection, c: Candidate)
    ensures Offers(selections + [s], c) == Offers(selections, c) + if c in s.offered then 1 else 0
  {
    assert (selections + [s])[..|selections|] == selections;
  }

  /** A new batch and the selection made from it. */
  function WithSelection(a: Archive, s: Selection): Archive {
    a.(candidates := a.candidates + s.offered, selections := a.selections + [s])
  }

  lemma SelectionStaysFiled(s: Selection, candidates: seq<Candidate>, more: seq<Candidate>, features: Features)
    requires SelectionFiled(s, candidates, features)
    ensures SelectionFiled(s, candidates + more, features)
  {
  }

  lemma SelectionBegins(a: Archive, s: Selection, features: Features)
    requires Filed(a, features) && SelectionFiled(s, a.candidates + s.offered, features)
    requires forall c :: c in s.offered ==> c !in a.candidates && WellPlanned(c.draft, features)
    ensures Filing(WithSelection(a, s), s, features)
  {
    var b := WithSelection(a, s);
    hide WellPlanned, OutcomeFiled;
    ConcatDistinct(a.candidates, s.offered);
    assert Elements(s.offered) * Elements(a.candidates) == {};
    assert s.offered[0] in s.offered;
    forall i | 0 <= i < |a.selections|
      ensures a.selections[i] != s && SelectionFiled(a.selections[i], b.candidates, features) {
      SelectionStaysFiled(a.selections[i], a.candidates, s.offered, features);
      assert a.selections[i].offered[0] in a.selections[i].offered;
    }
    forall c | c in b.candidates ensures Offers(b.selections, c) == 1 {
      OneMoreSelection(a.selections, s, c);
      if c in s.offered {
        NeverOffered(a.selections, c);
      }
    }
    assert b.selections[|a.selections|] == s;
  }

  /** The outcome of the plan is filed, or refused. */
  lemma OutcomeEnds(a: Archive, s: Selection, o: Outcome, features: Features)
    requires Filing(a, s, features) && o.selection == s && OutcomeFiled(o)
    ensures Filed(a.(outcomes := a.outcomes + [o]), features)
  {
    hide CandidatesFiled, OutcomeFiled, SelectionFiled, Distinct;
  }

  lemma RefusalEnds(a: Archive, s: Selection, features: Features)
    requires Filing(a, s, features)
    ensures Filed(a, features)
  {
    hide CandidatesFiled, OutcomeFiled, SelectionsFiled;
  }

  /** Candidates that pass the filter are those of the list, in order. */
  lemma {:induction false} EligibleIsDistinct(candidates: seq<Candidate>, w: World)
    requires Distinct(candidates)
    ensures Distinct(Eligible(candidates, w))
  {
    if candidates != [] {
      assert forall i :: 0 <= i < |candidates[1..]| ==> candidates[1..][i] == candidates[i + 1];
      assert candidates[0] !in candidates[1..];
      EligibleIsDistinct(candidates[1..], w);
    }
  }
}
