// The AVO loop (packages/arc-agi-3/src/avo-loop.ts): decisions over the plan archive (plan-archive.ts),
// the world model (world-model.ts) and the controller, and when its checkpoints bind.
module AvoLoop {
  import opened AvoArchive
  import opened AvoBindings
  import opened AvoCourse
  import opened Collections
  import opened Wrappers

  // ---------------------------------------------------------------- snapshots between decisions

  function RecordedReceipts(records: seq<Record>): set<Receipt> {
    set i | 0 <= i < |records| :: records[i].receipt
  }

  ghost predicate Unclaimed(r: Record, outcomes: seq<Outcome>) {
    forall j :: 0 <= j < |outcomes| ==> outcomes[j].selection != r.selection
  }

  /** Some record was made for a decision that left no outcome. */
  ghost predicate Stray(cp: Checkpoint) {
    exists i :: 0 <= i < |cp.records| && Unclaimed(cp.records[i], cp.archive.outcomes)
  }

  /** The same, for a decision other than the one under way. */
  ghost predicate StrayBut(cp: Checkpoint, s: Selection) {
    exists i :: 0 <= i < |cp.records| && cp.records[i].selection != s && Unclaimed(cp.records[i], cp.archive.outcomes)
  }

  /** The receipts after the baseline begin with these. */
  ghost predicate InOrder(cp: Checkpoint, cited: seq<Receipt>) {
    cp.baseline <= |cp.receipts| && cited <= Loop(cp)
  }

  /** The outcomes cite exactly the receipts after the baseline, and no record is stray. */
  ghost predicate Bound(cp: Checkpoint) {
    cp.baseline <= |cp.receipts| && Cited(cp.archive.outcomes) == Loop(cp) && !Stray(cp)
  }

  /** The receipts the outcomes have not got to. */
  ghost function Uncited(cp: Checkpoint): seq<Receipt>
    requires InOrder(cp, Cited(cp.archive.outcomes))
  {
    Loop(cp)[|Cited(cp.archive.outcomes)|..]
  }

  /** Some receipt has no result on the ledger: no call returns it, and the controller's checkpoint is refused. */
  ghost predicate Uncovered(cp: Checkpoint, ledger: map<string, Receipt>) {
    exists i :: 0 <= i < |cp.receipts| && cp.receipts[i] !in ledger.Values
  }

  /** Whatever is decided from here on, no checkpoint will be emitted. */
  ghost predicate Doomed(cp: Checkpoint, ledger: map<string, Receipt>) {
    !InOrder(cp, Cited(cp.archive.outcomes)) || Stray(cp) || Uncovered(cp, ledger)
  }

  /** The observation the receipts not cited yet start from; with none left, the controller's. */
  ghost function Front(cp: Checkpoint, current: Hash): Hash
    requires InOrder(cp, Cited(cp.archive.outcomes))
  {
    if Uncited(cp) == [] then current else Uncited(cp)[0].request.expected
  }

  /** The loop looks at the observation its next citations start from. */
  ghost predicate AtFront(cp: Checkpoint, observation: Hash, current: Hash) {
    InOrder(cp, Cited(cp.archive.outcomes)) && observation == Front(cp, current)
  }

  /** The next decision can make the loop bind again. */
  ghost predicate Mendable(cp: Checkpoint, observation: Hash, b: Books, features: Features) {
    && !Doomed(cp, b.ledger) && Uncited(cp) != [] && AtFront(cp, observation, b.observation)
    && |cp.archive.outcomes| < features.maxActions && |Uncited(cp)| <= features.StepLimit()
  }

  /** Unless some outcome was refused, a loop whose citations are in order stands at the front. */
  ghost predicate Standing(cp: Checkpoint, observation: Hash, current: Hash) {
    !Lacking(cp.archive) && InOrder(cp, Cited(cp.archive.outcomes)) ==> AtFront(cp, observation, current)
  }

  /** The loop does not bind, the controller takes no more actions, and it has nothing to return here. */
  ghost predicate Stuck(cp: Checkpoint, observation: Hash, b: Books) {
    !Bound(cp) && b.faulted && forall r :: r in b.ledger.Values ==> r.request.expected != observation
  }

  /** All that `Binds` asks for, except that the outcomes need not have got to the last receipts. */
  ghost predicate Follows(cp: Checkpoint, retrodictive: bool) {
    && BaselineOk(cp) && InOrder(cp, Cited(cp.archive.outcomes))
    && multiset(CitedRecords(cp.archive.outcomes)) == multiset(cp.records)
    && (forall i :: 0 <= i < |cp.archive.outcomes| ==> OutcomeBound(cp.archive.outcomes[i], cp.archive))
    && (forall i :: 0 <= i < |cp.records| ==> RecordBound(cp.records[i], cp.receipts, cp.archive))
    && (!retrodictive ==> cp.records == [])
  }

  ghost predicate Settled(cp: Checkpoint, retrodictive: bool) {
    InOrder(cp, Cited(cp.archive.outcomes)) && !Stray(cp) ==> Follows(cp, retrodictive)
  }

  /** What every snapshot of a loop satisfies, replays and losses included. */
  ghost predicate Shaped(cp: Checkpoint, retrodictive: bool) {
    && BaselineOk(cp) && Distinct(cp.receipts)
    && (forall r :: r in Cited(cp.archive.outcomes) ==> r in cp.receipts)
    && (forall i :: 0 <= i < |cp.records| ==>
          cp.records[i].receipt in cp.receipts && cp.records[i].selection in cp.archive.selections)
    && OneEach(cp.records)
    && (!retrodictive ==> cp.records == [])
    && (forall i :: 0 <= i < |cp.archive.selections| ==>
          cp.archive.selections[i].offered != [] && forall c :: c in cp.archive.selections[i].offered ==>
              c in cp.archive.candidates)
    && (forall i :: 0 <= i < |cp.archive.outcomes| ==> cp.archive.outcomes[i].selection in cp.archive.selections)
  }

  lemma {:induction false} CitedRecordHasOutcome(outcomes: seq<Outcome>, r: Record)
    requires r in CitedRecords(outcomes)
    ensures exists j :: 0 <= j < |outcomes| && r in outcomes[j].records
    decreases |outcomes|
  {
    var k := |outcomes| - 1;
    if r !in outcomes[k].records {
      CitedRecordHasOutcome(outcomes[..k], r);
      var j :| 0 <= j < |outcomes[..k]| && r in outcomes[..k][j].records;
      assert outcomes[j] == outcomes[..k][j];
    }
  }

  lemma {:induction false} CitedHasOutcome(outcomes: seq<Outcome>, r: Receipt)
    ensures r in Cited(outcomes) <==> exists j :: 0 <= j < |outcomes| && r in outcomes[j].receipts
    decreases |outcomes|
  {
    if outcomes != [] {
      var k := |outcomes| - 1;
      CitedHasOutcome(outcomes[..k], r);
      if j :| 0 <= j < |outcomes[..k]| && r in outcomes[..k][j].receipts {
        assert outcomes[j] == outcomes[..k][j];
      }
      if j :| 0 <= j < |outcomes| && r in outcomes[j].receipts {
        if j < k {
          assert outcomes[..k][j] == outcomes[j];
        }
      }
    }
  }

  lemma BoundRecordIsClaimed(cp: Checkpoint, retrodictive: bool, i: nat)
    requires Follows(cp, retrodictive) && i < |cp.records|
    ensures !Unclaimed(cp.records[i], cp.archive.outcomes)
  {
    hide Cited, CitedRecords, FollowsPlan, RecordBound;
    var r := cp.records[i];
    assert r in multiset(cp.records) && r in multiset(CitedRecords(cp.archive.outcomes));
    CitedRecordHasOutcome(cp.archive.outcomes, r);
    var j :| 0 <= j < |cp.archive.outcomes| && r in cp.archive.outcomes[j].records;
    assert OutcomeBound(cp.archive.outcomes[j], cp.archive);
  }

  /** Between decisions a snapshot binds exactly when its citations are in step and no record is stray. */
  lemma BindsIsBound(cp: Checkpoint, retrodictive: bool)
    requires Settled(cp, retrodictive)
    ensures Binds(cp, retrodictive) <==> Bound(cp)
  {
    hide Cited, CitedRecords, OutcomeBound, RecordBound, Unclaimed;
    if Binds(cp, retrodictive) {
      assert Follows(cp, retrodictive);
      forall i | 0 <= i < |cp.records| ensures !Unclaimed(cp.records[i], cp.archive.outcomes) {
        BoundRecordIsClaimed(cp, retrodictive, i);
      }
    }
  }

  lemma DoomedIsUnbound(cp: Checkpoint, ledger: map<string, Receipt>)
    requires Doomed(cp, ledger)
    ensures !Bound(cp) || Uncovered(cp, ledger)
  {
    hide Cited, Stray;
  }

  lemma NextIsNew<T(!new)>(xs: seq<T>, ys: seq<T>)
    requires xs <= ys && Distinct(ys) && |xs| < |ys|
    ensures ys[|xs|] !in xs
  {
    forall i | 0 <= i < |xs| ensures xs[i] != ys[|xs|] {
      assert ys[i] == xs[i];
    }
  }

  /** Receipts appended later do not put citations in order. */
  lemma OrderIsOld(cited: seq<Receipt>, cp: Checkpoint, receipts: seq<Receipt>)
    requires cp.baseline <= |cp.receipts| && cp.receipts <= receipts && Distinct(receipts)
    requires forall r :: r in cited ==> r in cp.receipts
    ensures InOrder(cp.(receipts := receipts), cited) <==> InOrder(cp, cited)
  {
    var after := cp.(receipts := receipts);
    assert Loop(after)[..|Loop(cp)|] == Loop(cp);
    if cited <= Loop(after) {
      if |cited| > |Loop(cp)| {
        assert cited[|Loop(cp)|] == receipts[|cp.receipts|] && cited[|Loop(cp)|] in cited;
        NextIsNew(cp.receipts, receipts);
        assert false;
      }
      assert cited == Loop(after)[..|cited|];
    }
  }

  // ---------------------------------------------------------------- a plan under way

  ghost predicate InPlan(a: Archive, s: Selection) {
    && s in a.selections && s.selected in a.candidates && s.selected in s.eligible
    && s.observation == s.selected.draft.base && s.selected.draft.steps != []
        && s.selected.draft.steps[0].expected == s.observation
  }

  /** All but the plan in flight follows, and the plan in flight is in order. */
  ghost predicate Pending(cp: Checkpoint, s: Selection, completed: seq<Receipt>, made: seq<Record>) {
    && BaselineOk(cp)
    && multiset(cp.records) == multiset(CitedRecords(cp.archive.outcomes)) + multiset(made)
    && (forall i :: 0 <= i < |cp.archive.outcomes| ==> OutcomeBound(cp.archive.outcomes[i], cp.archive))
    && (forall i :: 0 <= i < |cp.records| ==> RecordBound(cp.records[i], cp.receipts, cp.archive))
    && FollowsPlan(completed, s.selected, s)
    && (forall k :: 0 <= k < |made| ==> made[k].selection == s && made[k].candidate == s.selected)
  }

  ghost predicate OnTrack(cp: Checkpoint, s: Selection, completed: seq<Receipt>) {
    InOrder(cp, Cited(cp.archive.outcomes) + completed) && !StrayBut(cp, s)
  }

  /** Receipts and records of the plan are known, and the records are those of its first receipts. */
  ghost predicate Made(cp: Checkpoint, completed: seq<Receipt>, made: seq<Record>) {
    && (forall r :: r in completed ==> r in cp.receipts)
    && |made| <= |completed|
    && (forall k :: 0 <= k < |made| ==> made[k].receipt == completed[k] && made[k] in cp.records)
  }

  ghost predicate UnderWay(cp: Checkpoint, retrodictive: bool, s: Selection, completed: seq<Receipt>,
      made: seq<Record>) {
    && Shaped(cp, retrodictive) && Settled(cp, retrodictive)
    && InPlan(cp.archive, s) && (forall j :: 0 <= j < |cp.archive.outcomes| ==> cp.archive.outcomes[j].selection != s)
    && Made(cp, completed, made)
    && (OnTrack(cp, s, completed) ==> Pending(cp, s, completed, made))
  }

  lemma StrayIgnoresReceipts(cp: Checkpoint, receipts: seq<Receipt>, s: Selection)
    ensures Stray(cp.(receipts := receipts)) <==> Stray(cp)
    ensures StrayBut(cp.(receipts := receipts), s) <==> StrayBut(cp, s)
  {
    hide Unclaimed;
  }

  lemma BaselineKept(cp: Checkpoint, receipts: seq<Receipt>)
    requires BaselineOk(cp) && cp.receipts <= receipts
    ensures BaselineOk(cp.(receipts := receipts))
    ensures forall r :: r in cp.receipts ==> r in receipts
  {
    assert receipts[..|cp.receipts|] == cp.receipts;
  }

  lemma RecordsKept(cp: Checkpoint, receipts: seq<Receipt>)
    requires cp.receipts <= receipts
    ensures (forall i :: 0 <= i < |cp.records| ==> RecordBound(cp.records[i], cp.receipts, cp.archive)) ==>
              forall i :: 0 <= i < |cp.records| ==> RecordBound(cp.records[i], receipts, cp.archive)
  {
    assert receipts[..|cp.receipts|] == cp.receipts;
  }

  /** A plan is under way still when the controller has appended receipts. */
  lemma ReceiptsAppended(cp: Checkpoint, retrodictive: bool, s: Selection, completed: seq<Receipt>, made: seq<Record>,
      receipts: seq<Receipt>)
    requires UnderWay(cp, retrodictive, s, completed, made) && cp.receipts <= receipts && Distinct(receipts)
    ensures UnderWay(cp.(receipts := receipts), retrodictive, s, completed, made)
  {
    hide Cited, CitedRecords, OutcomeBound, RecordBound, FollowsPlan, BaselineOk, InPlan, InOrder, Stray, StrayBut,
      Distinct;
    BaselineKept(cp, receipts);
    RecordsKept(cp, receipts);
    StrayIgnoresReceipts(cp, receipts, s);
    BaselineFits(cp);
    OrderIsOld(Cited(cp.archive.outcomes), cp, receipts);
    OrderIsOld(Cited(cp.archive.outcomes) + completed, cp, receipts);
  }

  lemma BaselineFits(cp: Checkpoint)
    requires BaselineOk(cp)
    ensures cp.baseline <= |cp.receipts|
  {
  }

  lemma OrderShortens(cp: Checkpoint, cited: seq<Receipt>, r: Receipt)
    requires InOrder(cp, cited + [r])
    ensures InOrder(cp, cited)
  {
    assert cited == (cited + [r])[..|cited|] == Loop(cp)[..|cited|];
  }

  lemma PlanGoesOn(completed: seq<Receipt>, r: Receipt, s: Selection)
    requires FollowsPlan(completed, s.selected, s) && |completed| < |s.selected.draft.steps|
    requires Executes(r, s.selected.draft.steps[|completed|])
    requires s.selected.draft.steps[0].expected == s.observation
    ensures FollowsPlan(completed + [r], s.selected, s)
  {
  }

  /** A step came back with a receipt, new or replayed. */
  lemma ReceiptObtained(cp: Checkpoint, retrodictive: bool, s: Selection, completed: seq<Receipt>, made: seq<Record>,
      r: Receipt)
    requires UnderWay(cp, retrodictive, s, completed, made) && r in cp.receipts
    requires |completed| < |s.selected.draft.steps| && Executes(r, s.selected.draft.steps[|completed|])
    ensures UnderWay(cp, retrodictive, s, completed + [r], made)
  {
    hide Cited, CitedRecords, OutcomeBound, RecordBound, FollowsPlan, BaselineOk, InOrder, StrayBut, Settled, Shaped,
      Executes;
    var cited := Cited(cp.archive.outcomes);
    if OnTrack(cp, s, completed + [r]) {
      assert cited + (completed + [r]) == (cited + completed) + [r];
      OrderShortens(cp, cited + completed, r);
      PlanGoesOn(completed, r, s);
    }
  }

  lemma OwnRecordIsStray(cp: Checkpoint, s: Selection, record: Record)
    requires record.selection == s && forall j :: 0 <= j < |cp.archive.outcomes| ==>
             cp.archive.outcomes[j].selection != s
    ensures Stray(cp.(records := cp.records + [record]))
    ensures StrayBut(cp.(records := cp.records + [record]), s) <==> StrayBut(cp, s)
  {
    var after := cp.(records := cp.records + [record]);
    assert after.records[|cp.records|] == record && Unclaimed(record, cp.archive.outcomes);
    if i :|
        && 0 <= i < |after.records| && after.records[i].selection != s
        && Unclaimed(after.records[i], after.archive.outcomes) {
      assert cp.records[i] == after.records[i];
    }
    if i :| 0 <= i < |cp.records| && cp.records[i].selection != s && Unclaimed(cp.records[i], cp.archive.outcomes) {
      assert after.records[i] == cp.records[i];
    }
  }

  lemma PendingRecord(cp: Checkpoint, s: Selection, completed: seq<Receipt>, made: seq<Record>, record: Record)
    requires Pending(cp, s, completed, made) && InPlan(cp.archive, s) && record.receipt in cp.receipts
    requires record == Record(s, s.selected, record.receipt, record.receipt.request.action, record.receipt.error)
    ensures Pending(cp.(records := cp.records + [record]), s, completed, made + [record])
  {
    hide Cited, CitedRecords, OutcomeBound, FollowsPlan;
    var after := cp.(records := cp.records + [record]);
    forall i | 0 <= i < |after.records| ensures RecordBound(after.records[i], after.receipts, after.archive) {
      if i < |cp.records| {
        assert RecordBound(cp.records[i], cp.receipts, cp.archive);
      }
    }
  }

  lemma ShapedRecord(cp: Checkpoint, s: Selection, record: Record)
    requires Shaped(cp, true) && s in cp.archive.selections && record.receipt in cp.receipts && record.selection == s
    requires forall i :: 0 <= i < |cp.records| ==> cp.records[i].receipt != record.receipt
    ensures Shaped(cp.(records := cp.records + [record]), true)
  {
    hide Cited, Distinct;
  }

  lemma MadeRecord(cp: Checkpoint, completed: seq<Receipt>, made: seq<Record>, record: Record)
    requires Made(cp, completed, made) && |made| < |completed| && record.receipt == completed[|made|]
    ensures Made(cp.(records := cp.records + [record]), completed, made + [record])
    ensures record in cp.records ==> Made(cp, completed, made + [record])
  {
    assert record in (cp.records + [record]);
  }

  /** The world model made a record for the receipt of the step. */
  lemma RecordMade(cp: Checkpoint, s: Selection, completed: seq<Receipt>, made: seq<Record>, record: Record)
    requires UnderWay(cp, true, s, completed, made) && |made| < |completed|
    requires record == Record(s, s.selected, completed[|made|], completed[|made|].request.action,
               completed[|made|].error)
    requires forall i :: 0 <= i < |cp.records| ==> cp.records[i].receipt != record.receipt
    ensures UnderWay(cp.(records := cp.records + [record]), true, s, completed, made + [record])
  {
    hide Cited, InOrder, Stray, StrayBut, Shaped, Pending, Follows;
    OwnRecordIsStray(cp, s, record);
    ShapedRecord(cp, s, record);
    MadeRecord(cp, completed, made, record);
    if OnTrack(cp, s, completed) {
      PendingRecord(cp, s, completed, made, record);
    }
    InOrderIgnoresRecords(cp, Cited(cp.archive.outcomes) + completed, cp.records + [record]);
  }

  lemma InOrderIgnoresRecords(cp: Checkpoint, cited: seq<Receipt>, records: seq<Record>)
    ensures InOrder(cp.(records := records), cited) <==> InOrder(cp, cited)
  {
  }

  /** A receipt that already has a record was cited before, so the plan is off the track. */
  lemma RecordFound(cp: Checkpoint, s: Selection, completed: seq<Receipt>, made: seq<Record>, record: Record)
    requires UnderWay(cp, true, s, completed, made) && |completed| == |made| + 1
    requires record in cp.records && record.receipt == completed[|made|]
    ensures UnderWay(cp, true, s, completed, made + [record])
  {
    MadeRecord(cp, completed, made, record);
    if OnTrack(cp, s, completed) {
      RecordMeansRepeat(cp, s, completed, made, record);
    }
    hide Shaped, Settled, OnTrack, Pending, InPlan;
  }

  lemma RecordMeansRepeat(cp: Checkpoint, s: Selection, completed: seq<Receipt>, made: seq<Record>, record: Record)
    requires UnderWay(cp, true, s, completed, made) && |completed| == |made| + 1
    requires record in cp.records && record.receipt == completed[|made|]
    ensures !OnTrack(cp, s, completed)
  {
    if OnTrack(cp, s, completed) {
      TrackIsDistinct(cp, completed);
      PendingRecordIsOld(cp, s, completed, made, record);
      AlreadyThere(Cited(cp.archive.outcomes), completed, made, record);
    }
  }

  lemma AlreadyThere(cited: seq<Receipt>, completed: seq<Receipt>, made: seq<Record>, record: Record)
    requires |completed| == |made| + 1 && record.receipt == completed[|made|]
    requires forall k :: 0 <= k < |made| ==> made[k].receipt == completed[k]
    requires record in made || record.receipt in cited
    ensures !Distinct(cited + completed)
  {
    var all, n := cited + completed, |cited|;
    assert all[n + |made|] == record.receipt;
    if record in made {
      var k :| 0 <= k < |made| && made[k] == record;
      assert all[n + k] == record.receipt;
    } else {
      var k :| 0 <= k < n && cited[k] == record.receipt;
      assert all[k] == record.receipt;
    }
  }

  lemma TrackIsDistinct(cp: Checkpoint, completed: seq<Receipt>)
    requires Distinct(cp.receipts) && InOrder(cp, Cited(cp.archive.outcomes) + completed)
    ensures Distinct(Cited(cp.archive.outcomes) + completed)
  {
    hide Cited;
    assert forall i, j :: 0 <= i < j < |Loop(cp)| ==> Loop(cp)[i] != Loop(cp)[j];
    DistinctPrefix(Cited(cp.archive.outcomes) + completed, Loop(cp));
  }

  lemma PendingRecordIsOld(cp: Checkpoint, s: Selection, completed: seq<Receipt>, made: seq<Record>, record: Record)
    requires Pending(cp, s, completed, made) && record in cp.records
    ensures record in made || record.receipt in Cited(cp.archive.outcomes)
  {
    hide Cited, CitedRecords, FollowsPlan, RecordBound;
    assert record in multiset(cp.records);
    if record !in made {
      assert record in multiset(CitedRecords(cp.archive.outcomes));
      CitedRecordHasOutcome(cp.archive.outcomes, record);
      var j :| 0 <= j < |cp.archive.outcomes| && record in cp.archive.outcomes[j].records;
      assert OutcomeBound(cp.archive.outcomes[j], cp.archive);
      CitedHasOutcome(cp.archive.outcomes, record.receipt);
    }
  }

  /** A decision has been taken up: nothing has come of it yet. */
  lemma PlanBegins(cp: Checkpoint, retrodictive: bool, s: Selection)
    requires Shaped(cp, retrodictive) && Settled(cp, retrodictive)
    requires s.offered != [] && s.offered[0] !in cp.archive.candidates && s.selected in s.offered
    requires s.selected in s.eligible
    requires s.observation == s.selected.draft.base && s.selected.draft.steps != []
    requires s.selected.draft.steps[0].expected == s.observation
    ensures s !in cp.archive.selections
    ensures UnderWay(TakenUp(cp, s), retrodictive, s, [], [])
  {
    hide Cited, CitedRecords, OutcomeBound, RecordBound, FollowsPlan, BaselineOk, Distinct, Unclaimed;
    var after := TakenUp(cp, s);
    NothingMade(cp, s);
    SameBaseline(cp, after);
    if OnTrack(after, s, []) {
      assert Cited(cp.archive.outcomes) + [] == Cited(cp.archive.outcomes);
      assert !Stray(cp);
      FollowsBegins(cp, retrodictive, s);
    }
    if InOrder(after, Cited(after.archive.outcomes)) && !Stray(after) {
      FollowsBegins(cp, retrodictive, s);
    }
  }

  function TakenUp(cp: Checkpoint, s: Selection): Checkpoint {
    cp.(archive := WithSelection(cp.archive, s))
  }

  lemma NothingMade(cp: Checkpoint, s: Selection)
    requires s !in cp.archive.selections
    requires forall i :: 0 <= i < |cp.records| ==> cp.records[i].selection in cp.archive.selections
    ensures StrayBut(TakenUp(cp, s), s) <==> Stray(cp)
    ensures Stray(TakenUp(cp, s)) <==> Stray(cp)
  {
    hide Unclaimed;
    forall i | 0 <= i < |cp.records| ensures cp.records[i].selection != s {}
    if Stray(cp) {
      var i :| 0 <= i < |cp.records| && Unclaimed(cp.records[i], cp.archive.outcomes);
      assert TakenUp(cp, s).records[i].selection != s;
    }
  }

  lemma FollowsBegins(cp: Checkpoint, retrodictive: bool, s: Selection)
    requires Follows(cp, retrodictive)
    ensures Follows(TakenUp(cp, s), retrodictive) && Pending(TakenUp(cp, s), s, [], [])
  {
    hide Cited, CitedRecords, FollowsPlan;
    var after := TakenUp(cp, s);
    forall i | 0 <= i < |after.archive.outcomes| ensures OutcomeBound(after.archive.outcomes[i], after.archive) {
      assert OutcomeBound(cp.archive.outcomes[i], cp.archive);
    }
    forall i | 0 <= i < |after.records| ensures RecordBound(after.records[i], after.receipts, after.archive) {
      assert RecordBound(cp.records[i], cp.receipts, cp.archive);
    }
    NothingFollows(s);
  }

  lemma NothingFollows(s: Selection)
    ensures FollowsPlan([], s.selected, s)
  {
  }

  function Written(cp: Checkpoint, s: Selection, completed: seq<Receipt>, made: seq<Record>, stop: Stop): Checkpoint {
    cp.(archive := cp.archive.(outcomes := cp.archive.outcomes + [Outcome(s.selected, s, completed, made, stop)]))
  }

  /** The outcome of the decision is written. */
  lemma OutcomeWritten(cp: Checkpoint, retrodictive: bool, s: Selection, completed: seq<Receipt>, made: seq<Record>,
      stop: Stop)
    requires UnderWay(cp, retrodictive, s, completed, made)
    ensures Shaped(Written(cp, s, completed, made, stop), retrodictive)
    ensures Settled(Written(cp, s, completed, made, stop), retrodictive)
    ensures Cited(Written(cp, s, completed, made, stop).archive.outcomes) == Cited(cp.archive.outcomes) + completed
  {
    hide Cited, CitedRecords, OutcomeBound, RecordBound, FollowsPlan, BaselineOk, Distinct, Unclaimed, Stray, StrayBut,
      InOrder, Pending;
    var after := Written(cp, s, completed, made, stop);
    CitedAppend(cp.archive.outcomes, Outcome(s.selected, s, completed, made, stop));
    WrittenClaims(cp, s, completed, made, stop);
    SameOrder(cp, after, Cited(cp.archive.outcomes) + completed);
    if InOrder(after, Cited(after.archive.outcomes)) && !Stray(after) {
      PendingFollows(cp, retrodictive, s, completed, made, stop);
    }
    SameBaseline(cp, after);
  }

  lemma SameBaseline(cp: Checkpoint, after: Checkpoint)
    requires BaselineOk(cp) && after.baseline == cp.baseline && after.head == cp.head && after.receipts == cp.receipts
    ensures BaselineOk(after)
  {
  }

  lemma SameOrder(cp: Checkpoint, after: Checkpoint, cited: seq<Receipt>)
    requires after.receipts == cp.receipts && after.baseline == cp.baseline
    ensures InOrder(after, cited) <==> InOrder(cp, cited)
  {
  }

  lemma WrittenClaims(cp: Checkpoint, s: Selection, completed: seq<Receipt>, made: seq<Record>, stop: Stop)
    ensures Stray(Written(cp, s, completed, made, stop)) <==> StrayBut(cp, s)
  {
    var outcomes, o := cp.archive.outcomes, Outcome(s.selected, s, completed, made, stop);
    forall i | 0 <= i < |cp.records|
      ensures Unclaimed(cp.records[i], outcomes + [o]) <==>
              cp.records[i].selection != s && Unclaimed(cp.records[i], outcomes)
    {
      assert (outcomes + [o])[|outcomes|] == o;
      assert forall j :: 0 <= j < |outcomes| ==> (outcomes + [o])[j] == outcomes[j];
    }
  }

  lemma PendingFollows(cp: Checkpoint, retrodictive: bool, s: Selection, completed: seq<Receipt>, made: seq<Record>,
      stop: Stop)
    requires Pending(cp, s, completed, made) && InPlan(cp.archive, s) && (!retrodictive ==> cp.records == [])
    requires InOrder(cp, Cited(cp.archive.outcomes) + completed) && Made(cp, completed, made)
    ensures Follows(Written(cp, s, completed, made, stop), retrodictive)
  {
    hide FollowsPlan, Cited, CitedRecords;
    var after := Written(cp, s, completed, made, stop);
    CitedAppend(cp.archive.outcomes, Outcome(s.selected, s, completed, made, stop));
    forall i | 0 <= i < |after.archive.outcomes| ensures OutcomeBound(after.archive.outcomes[i], after.archive) {
      if i < |cp.archive.outcomes| {
        assert OutcomeBound(cp.archive.outcomes[i], cp.archive);
      }
    }
    forall i | 0 <= i < |after.records| ensures RecordBound(after.records[i], after.receipts, after.archive) {
      assert RecordBound(cp.records[i], cp.receipts, cp.archive);
    }
  }

  // ---------------------------------------------------------------- what a decision does to the binding

  /**
   * Between two snapshots a decision `s` was taken up: its plan came back with `completed`, the controller
   * appended receipts and the world model records, and an outcome was written unless it would cite twice.
   */
  ghost predicate Decided(before: Checkpoint, after: Checkpoint, s: Selection, completed: seq<Receipt>) {
    && after.baseline == before.baseline && before.receipts <= after.receipts && Distinct(after.receipts)
    && Adds(before.records, after.records, s)
    && s !in before.archive.selections
    && (if Distinct(completed) then WroteOutcome(before.archive.outcomes, after.archive.outcomes, s, completed)
        else after.archive.outcomes == before.archive.outcomes)
  }

  ghost predicate WroteOutcome(before: seq<Outcome>, after: seq<Outcome>, s: Selection, completed: seq<Receipt>) {
    && |after| == |before| + 1 && before <= after
    && var o := after[|before|]; o.selection == s && o.candidate == s.selected && o.receipts == completed
  }

  lemma WroteCites(before: seq<Outcome>, after: seq<Outcome>, s: Selection, completed: seq<Receipt>)
    requires WroteOutcome(before, after, s, completed)
    ensures Cited(after) == Cited(before) + completed
  {
    assert after == before + [after[|before|]];
    CitedAppend(before, after[|before|]);
  }

  lemma StrayAfter(before: Checkpoint, after: Checkpoint, retrodictive: bool, s: Selection, completed: seq<Receipt>)
    requires Shaped(before, retrodictive) && Decided(before, after, s, completed)
    ensures Stray(after) <==> Stray(before) || (!Distinct(completed) && |after.records| > |before.records|)
  {
    hide Distinct, BaselineOk, Cited;
    var outcomes, later := before.archive.outcomes, after.archive.outcomes;
    forall i | 0 <= i < |before.records|
      ensures Unclaimed(after.records[i], later) <==> Unclaimed(before.records[i], outcomes) {
      assert before.records[i].selection in before.archive.selections;
      assert forall j :: 0 <= j < |outcomes| ==> later[j] == outcomes[j];
    }
    forall i | |before.records| <= i < |after.records|
      ensures Unclaimed(after.records[i], later) <==> !Distinct(completed) {
      if Distinct(completed) {
        assert later[|outcomes|].selection == s;
      }
    }
    if Stray(before) {
      var i :| 0 <= i < |before.records| && Unclaimed(before.records[i], outcomes);
      assert Unclaimed(after.records[i], later);
    }
    if !Distinct(completed) && |after.records| > |before.records| {
      assert Unclaimed(after.records[|before.records|], later);
    }
  }

  /** What was appended between two snapshots. */
  function Since(before: Checkpoint, after: Checkpoint): seq<Receipt>
    requires |before.receipts| <= |after.receipts|
  {
    after.receipts[|before.receipts|..]
  }

  /**
   * While citations are in order and no record is stray, the decision leaves a binding snapshot exactly when its
   * plan comes back with the receipts not cited so far followed by those it appended; a refused outcome, only
   * when there are neither receipts to cite nor new records.
   */
  lemma BoundAfter(before: Checkpoint, after: Checkpoint, retrodictive: bool, s: Selection, completed: seq<Receipt>)
    requires Shaped(before, retrodictive) && Decided(before, after, s, completed)
    requires InOrder(before, Cited(before.archive.outcomes)) && !Stray(before)
    ensures Bound(after) <==>
            if Distinct(completed) then completed == Uncited(before) + Since(before, after)
            else Uncited(before) + Since(before, after) == [] && |after.records| == |before.records|
  {
    StrayAfter(before, after, retrodictive, s, completed);
    LoopGrows(before, after, retrodictive, s, completed);
    DecidedCites(before, after, s, completed);
    var cited, due := Cited(before.archive.outcomes), Uncited(before) + Since(before, after);
    hide Cited, Stray, Distinct, Shaped, Decided, Uncited, InOrder;
    SameFront(cited, completed, due);
    SameFront(cited, [], due);
    assert cited + [] == cited;
  }

  lemma LoopGrows(before: Checkpoint, after: Checkpoint, retrodictive: bool, s: Selection, completed: seq<Receipt>)
    requires Shaped(before, retrodictive) && Decided(before, after, s, completed)
    requires InOrder(before, Cited(before.archive.outcomes))
    ensures after.baseline <= |after.receipts|
    ensures Loop(after) == Cited(before.archive.outcomes) + (Uncited(before) + Since(before, after))
  {
    hide Cited, Distinct;
    assert Loop(after) == Loop(before) + Since(before, after);
    assert Loop(before) == Cited(before.archive.outcomes) + Uncited(before);
  }

  lemma DecidedCites(before: Checkpoint, after: Checkpoint, s: Selection, completed: seq<Receipt>)
    requires Decided(before, after, s, completed)
    ensures Cited(after.archive.outcomes) == Cited(before.archive.outcomes) + if Distinct(completed) then completed
            else []
  {
    hide Cited, Distinct;
    if Distinct(completed) {
      WroteCites(before.archive.outcomes, after.archive.outcomes, s, completed);
    }
  }

  lemma SameFront<T>(xs: seq<T>, ys: seq<T>, zs: seq<T>)
    ensures xs + ys == xs + zs <==> ys == zs
  {
    if xs + ys == xs + zs {
      assert (xs + ys)[|xs|..] == ys && (xs + zs)[|xs|..] == zs;
    }
  }

  /** Once doomed, always doomed. */
  lemma DoomedAfter(before: Checkpoint, after: Checkpoint, retrodictive: bool, s: Selection, completed: seq<Receipt>,
      ledger: map<string, Receipt>, now: map<string, Receipt>)
    requires Shaped(before, retrodictive) && Decided(before, after, s, completed) && Doomed(before, ledger)
    requires forall r :: r in completed ==> r in now.Values
    requires forall i :: 0 <= i < |before.receipts| ==> before.receipts[i].sequence == i
    requires forall r :: r in now.Values ==> r in ledger.Values || r.sequence >= |before.receipts|
    ensures Doomed(after, now)
  {
    StrayAfter(before, after, retrodictive, s, completed);
    var cited := Cited(before.archive.outcomes);
    OrderIsOld(cited, before, after.receipts);
    DecidedCites(before, after, s, completed);
    hide Cited, Stray, Distinct, Shaped, Loop;
    if InOrder(after, Cited(after.archive.outcomes)) {
      FrontInOrder(after, cited, if Distinct(completed) then completed else []);
      SameOrder(before.(receipts := after.receipts), after, cited);
      if i :| 0 <= i < |before.receipts| && before.receipts[i] !in ledger.Values {
        assert after.receipts[i] == before.receipts[i];
      }
    }
  }

  lemma FrontInOrder(cp: Checkpoint, xs: seq<Receipt>, ys: seq<Receipt>)
    requires InOrder(cp, xs + ys)
    ensures InOrder(cp, xs)
  {
    assert xs == (xs + ys)[..|xs|] == Loop(cp)[..|xs|];
  }

  /** Citing a receipt that is cited already, or one from before the baseline, dooms the loop. */
  lemma BadCitationDooms(before: Checkpoint, after: Checkpoint, s: Selection, completed: seq<Receipt>,
      ledger: map<string, Receipt>, r: Receipt)
    requires Decided(before, after, s, completed) && Distinct(completed) && before.baseline <= |before.receipts|
    requires r in completed && (r in Cited(before.archive.outcomes) || r in before.receipts[..before.baseline])
    ensures Doomed(after, ledger)
  {
    WroteCites(before.archive.outcomes, after.archive.outcomes, s, completed);
    var all, n := Cited(after.archive.outcomes), |Cited(before.archive.outcomes)|;
    hide Cited, Stray, Decided;
    var j :| 0 <= j < |completed| && completed[j] == r;
    assert all[n + j] == r;
    assert Distinct(Loop(after)) by {
      assert forall k :: 0 <= k < |Loop(after)| ==> Loop(after)[k] == after.receipts[after.baseline + k];
    }
    PrefixInherits(all, Loop(after));
    if r in Cited(before.archive.outcomes) {
      var i :| 0 <= i < n && Cited(before.archive.outcomes)[i] == r;
      assert all[i] == all[n + j];
    } else {
      var i :| 0 <= i < before.baseline && before.receipts[..before.baseline][i] == r;
      assert after.receipts[i] == r;
      forall k | 0 <= k < |Loop(after)| ensures Loop(after)[k] != r {
        assert Loop(after)[k] == after.receipts[after.baseline + k];
      }
    }
  }

  // ---------------------------------------------------------------- where a decision leaves the loop

  /** Each receipt after the baseline ends where the next one starts, and the last one where the controller stands. */
  lemma LoopChains(cp: Checkpoint, b: Books, n: nat)
    requires b.Valid() && cp.receipts == b.receipts && cp.baseline <= |cp.receipts| && 0 < n <= |Loop(cp)|
    ensures Loop(cp)[n - 1].post == if n < |Loop(cp)| then Loop(cp)[n].request.expected else b.observation
  {
    var k := cp.baseline + n - 1;
    assert Loop(cp)[n - 1] == b.receipts[k];
    if n < |Loop(cp)| {
      assert Loop(cp)[n] == b.receipts[k + 1];
    }
  }

  lemma FrontAt(cp: Checkpoint, current: Hash)
    requires InOrder(cp, Cited(cp.archive.outcomes))
    ensures var n := |Cited(cp.archive.outcomes)|;
            n <= |Loop(cp)| && Front(cp, current) == if n < |Loop(cp)| then Loop(cp)[n].request.expected else current
  {
    hide Cited;
  }

  /** Once something has been cited the front is where the last citation ended. */
  lemma FrontFollows(cp: Checkpoint, b: Books)
    requires b.Valid() && cp.receipts == b.receipts && InOrder(cp, Cited(cp.archive.outcomes))
    requires Cited(cp.archive.outcomes) != []
    ensures var cited := Cited(cp.archive.outcomes); Front(cp, b.observation) == cited[|cited| - 1].post
  {
    hide Cited, Books.Valid;
    FrontAt(cp, b.observation);
    LoopChains(cp, b, |Cited(cp.archive.outcomes)|);
  }

  /** While nothing more is cited the front stays where it is, whatever is appended. */
  lemma FrontStays(before: Checkpoint, after: Checkpoint, b: Books, c: Books)
    requires before.receipts == b.receipts && after.receipts == c.receipts && before.receipts <= after.receipts
    requires after.baseline == before.baseline && StartsAt(b, c)
    requires Cited(after.archive.outcomes) == Cited(before.archive.outcomes)
    requires InOrder(before, Cited(before.archive.outcomes)) && InOrder(after, Cited(after.archive.outcomes))
    ensures Front(after, c.observation) == Front(before, b.observation)
  {
    hide Cited;
    FrontAt(before, b.observation);
    FrontAt(after, c.observation);
    var n := |Cited(before.archive.outcomes)|;
    assert Loop(after) == Loop(before) + after.receipts[|before.receipts|..];
    if n == |Loop(before)| < |Loop(after)| {
      assert Loop(after)[n] == after.receipts[|before.receipts|];
    }
  }

  /**
   * A decision that cites something leaves the loop at the front, and one that comes back with nothing leaves it where
   * it was; a refused outcome leaves it there only if the last receipt of its plan ends there.
   */
  lemma AtFrontAfter(before: Checkpoint, after: Checkpoint, s: Selection, completed: seq<Receipt>, b: Books, c: Books,
      observation: Hash)
    requires Decided(before, after, s, completed) && before.receipts == b.receipts && after.receipts == c.receipts
    requires c.Valid() && StartsAt(b, c)
    requires InOrder(before, Cited(before.archive.outcomes)) && InOrder(after, Cited(after.archive.outcomes))
    ensures AtFront(after, Observed(observation, completed), c.observation) <==>
            if Distinct(completed) then completed != [] || AtFront(before, observation, b.observation)
            else Observed(observation, completed) == Front(before, b.observation)
  {
    DecidedCites(before, after, s, completed);
    hide Cited, Distinct, Books.Valid, StartsAt, Front;
    if Distinct(completed) && completed != [] {
      FrontFollows(after, c);
      var cited := Cited(after.archive.outcomes);
      assert cited[|cited| - 1] == completed[|completed| - 1];
    } else {
      NothingRepeats();
      assert Cited(before.archive.outcomes) + [] == Cited(before.archive.outcomes);
      FrontStays(before, after, b, c);
    }
  }

  lemma NothingRepeats()
    ensures Distinct<Receipt>([])
  {
  }

  /** What is bound by the last outcome starts where its decision was taken. */
  lemma BoundStarts(before: Checkpoint, after: Checkpoint, retrodictive: bool, s: Selection, completed: seq<Receipt>)
    requires Decided(before, after, s, completed) && Distinct(completed) && completed != []
    requires Settled(after, retrodictive) && Bound(after)
    ensures completed[0].request.expected == s.observation
  {
    hide Cited, CitedRecords, Distinct, Stray;
    var k := |before.archive.outcomes|;
    assert OutcomeBound(after.archive.outcomes[k], after.archive);
  }

  /** Only a loop that is mendable is mended by a decision. */
  lemma MendedWasMendable(before: Checkpoint, after: Checkpoint, features: Features, s: Selection,
      completed: seq<Receipt>, b: Books, c: Books)
    requires Shaped(before, features.retrodictive) && Settled(after, features.retrodictive)
    requires Decided(before, after, s, completed) && before.receipts == b.receipts
    requires !Doomed(before, b.ledger) && !Bound(before) && Bound(after)
    requires |before.archive.outcomes| < features.maxActions && |completed| <= features.StepLimit()
    ensures Mendable(before, s.observation, b, features)
  {
    hide Cited, Stray, Shaped, Settled, Decided, Distinct, Uncovered;
    DueWhenUnbound(before);
    DecidedGrows(before, after, s, completed);
    BoundAfter(before, after, features.retrodictive, s, completed);
    var due := Uncited(before);
    assert Distinct(completed) && completed == due + Since(before, after);
    assert completed[0] == due[0];
    BoundStarts(before, after, features.retrodictive, s, completed);
  }

  lemma DecidedGrows(before: Checkpoint, after: Checkpoint, s: Selection, completed: seq<Receipt>)
    requires Decided(before, after, s, completed)
    ensures |before.receipts| <= |after.receipts|
  {
  }

  lemma DueWhenUnbound(cp: Checkpoint)
    requires InOrder(cp, Cited(cp.archive.outcomes)) && !Stray(cp)
    ensures Bound(cp) <==> Uncited(cp) == []
  {
    hide Cited, Stray;
  }

  /** A decision that comes back with nothing and appends nothing changes nothing about the binding. */
  lemma NothingDecided(before: Checkpoint, after: Checkpoint, retrodictive: bool, s: Selection)
    requires Shaped(before, retrodictive) && Decided(before, after, s, []) && after.receipts == before.receipts
    ensures Bound(after) <==> Bound(before)
  {
    NothingRepeats();
    StrayAfter(before, after, retrodictive, s, []);
    DecidedCites(before, after, s, []);
    hide Cited, Stray, Distinct, Shaped;
    assert Cited(before.archive.outcomes) + [] == Cited(before.archive.outcomes);
  }

  /** With a stopped controller that has nothing to return at this observation, no plan gets anywhere. */
  lemma StuckCourse(steps: seq<PlanStep>, w: World, features: Features, recorded: set<Receipt>, b: Books)
    requires b.Valid() && b.faulted && steps != []
    requires forall r :: r in b.ledger.Values ==> r.request.expected != steps[0].expected
    ensures var c := Fly(steps, w, features, recorded, [], b); c.completed == [] && c.books == b
  {
    var q := RequestOf(steps[0], w.turn(0));
    if q.key in b.ledger {
      assert b.ledger[q.key] in b.ledger.Values;
    }
    assert !b.Admits(q, w.turn(0).event) && b.After(q, w.turn(0).event) == b;
  }

  /** What a decision, whose plan took the course `c`, does to the binding and to where the loop stands. */
  ghost predicate Accounts(before: Checkpoint, b: Books, stood: Hash, after: Checkpoint, stands: Hash, c: Course,
      features: Features) {
    var ordered, orderedAfter :=
        InOrder(before, Cited(before.archive.outcomes)), InOrder(after, Cited(after.archive.outcomes));
    && before.receipts <= after.receipts
    // A loop that binds goes on binding if no turn loses or replays a receipt, or if nothing at all is left of it.
    && (Bound(before) ==>
          (Bound(after) <==> (!c.loses && !c.replays)
                             || (!Distinct(c.completed) && after.receipts == before.receipts
                                   && after.records == before.records)))
    // In general it binds if the plan comes back with what was due, old and new.
    && (ordered && !Stray(before) ==>
          var due := Uncited(before) + Since(before, after);
          Bound(after) <==> if Distinct(c.completed) then c.completed == due
              else due == [] && after.records == before.records)
    // A second citation, or one from before the baseline, ends all checkpoints, and so does whatever dooms a loop.
    && (Distinct(c.completed) ==> forall r :: r in c.completed && Spent(before, r) ==> Doomed(after, c.books.ledger))
    && (Doomed(before, b.ledger) ==> Doomed(after, c.books.ledger))
    // Citing leads to the front; a refused outcome leads there only if its last receipt ends there.
    && (ordered && orderedAfter ==>
          (AtFront(after, stands, c.books.observation) <==>
           if Distinct(c.completed) then c.completed != [] || AtFront(before, stood, b.observation)
           else stands == Front(before, b.observation)))
    // So a loop stands at the front as long as no outcome has been refused, and a refusal is never forgotten.
    && (Standing(before, stood, b.observation) ==> Standing(after, stands, c.books.observation))
    && (Lacking(after.archive) <==> Lacking(before.archive) || !Distinct(c.completed))
    // Only a mendable loop is mended, and a stuck one stays stuck.
    && (!Bound(before) && Bound(after) && !Uncovered(after, c.books.ledger) ==> Mendable(before, stood, b, features))
    && (Stuck(before, stood, b) ==> Stuck(after, stands, c.books))
  }

  // ---------------------------------------------------------------- the loop

  class ArcAvoLoop {
    const controller: Controller
    const features: Features
    const baseline: nat
    const head: Option<Receipt>
    const versions: string
    var archive: Archive
    var records: seq<Record>
    var observation: Hash

    function Snapshot(): Checkpoint
      reads this`archive, this`records, controller
    {
      Checkpoint(controller.receipts, baseline, head, archive, records)
    }

    function Recorded(): set<Receipt>
      reads this`records
    {
      RecordedReceipts(records)
    }

    /** Whatever was lost or replayed, citations in order and no stray record mean that everything else binds. */
    ghost predicate Inv()
      reads this`archive, this`records, controller
    {
      controller.Valid() && Filed(archive, features) && Shaped(Snapshot(), features.retrodictive)
          && Settled(Snapshot(), features.retrodictive)
    }

    /** Kept by every decision, like `Inv`. */
    ghost predicate Stands()
      reads this`archive, this`records, this`observation, controller
    {
      Standing(Snapshot(), observation, controller.observation)
    }

    constructor (controller: Controller, features: Features, versions: string)
      requires controller.Valid()
      ensures Inv() && Stands() && Bound(Snapshot()) && this.controller == controller && this.features == features
      ensures this.versions == versions && AtFront(Snapshot(), observation, controller.observation)
      ensures baseline == |controller.receipts| && archive == Archive([], [], []) && records == []
      ensures observation == controller.observation
    {
      this.controller, this.features, this.versions := controller, features, versions;
      baseline := |controller.receipts|;
      head := if |controller.receipts| == 0 then None else Some(controller.receipts[|controller.receipts| - 1]);
      archive, records, observation := Archive([], [], []), [], controller.observation;
      new;
      EmptyIsFiled(features);
    }

    /** Adds the batch, or rejects it and leaves the archive alone. */
    method AddCandidates(drafts: seq<Draft>, w: World) returns (r: Result<seq<Candidate>, string>)
      modifies this`archive
      ensures r.Ok? <==> Addable(drafts, w, old(archive), observation, features)
      ensures r.Err? ==> archive == old(archive)
      ensures r.Ok? ==>
              r.value == Candidates(drafts, w)
                  && archive == old(archive).(candidates := old(archive).candidates + r.value)
    {
      if drafts == [] || |drafts| > features.maxOffered { return Err("INVALID_CANDIDATE_BATCH"); }
      var created: seq<Candidate> := [];
      for i := 0 to |drafts|
        invariant |created| == i && archive == old(archive)
        invariant created == Candidates(drafts, w)[..i]
        invariant forall j :: 0 <= j < i ==> Proper(drafts[j], w, archive, observation, features)
        invariant Distinct(created)
      {
        var d := drafts[i];
        if w.refuses(d).Some? { return Err(w.refuses(d).value); }
        if d.base != observation { return Err("STALE_PLAN_BASE"); }
        var proper := CheckPlan(d, features);
        if !proper { return Err("INVALID_CANDIDATE_PLAN"); }
        var c := Candidate(d, w.depth(d));
        assert c == Candidates(drafts, w)[i];
        if c in archive.candidates || c in created {
          RepeatedDraft(drafts, w, i);
          return Err("DUPLICATE_CANDIDATE");
        }
        created := created + [c];
      }
      assert created == Candidates(drafts, w) && Addable(drafts, w, archive, observation, features);
      archive := archive.(candidates := archive.candidates + created);
      r := Ok(created);
    }

    /** Picks one of the legal candidates, or throws before recording anything. */
    method Select(candidates: seq<Candidate>, w: World) returns (r: Result<Selection, string>)
      requires candidates != []
      modifies this`archive
      ensures r.Err? ==> archive == old(archive)
      ensures r.Ok? ==> archive == old(archive).(selections := old(archive).selections + [r.value])
      ensures r.Ok? <==> !w.capacity && exists c :: c in candidates && w.legal(c)
      ensures r.Ok? ==> Eligible(candidates, w) != [] && r.value == Picked(candidates, w, observation)
      ensures r.Ok? ==> forall c :: c in r.value.eligible <==> c in candidates && w.legal(c)
      ensures r.Ok? ==> r.value.selected in r.value.eligible
    {
      var eligible := LegalOnes(candidates, w);
      assert forall c :: c in candidates && w.legal(c) ==> c in eligible;
      if eligible == [] { return Err("NO_LEGAL_CANDIDATE"); }
      if w.capacity { return Err("AVO_ARCHIVE_BUDGET_EXHAUSTED"); }
      var chosen := eligible[w.pick(eligible) % |eligible|];
      assert chosen in eligible;
      var s := Selection(observation, candidates, eligible, chosen);
      archive := archive.(selections := archive.selections + [s]);
      r := Ok(s);
    }

    /** A plan is being executed: `completed` and `made` are what it has to show so far. */
    ghost predicate Flying(s: Selection, completed: seq<Receipt>, made: seq<Record>)
      reads this`archive, this`records, controller
    {
      && controller.Valid() && Filing(archive, s, features)
          && UnderWay(Snapshot(), features.retrodictive, s, completed, made)
      && |completed| <= StepCount(s.selected.draft.steps, features)
    }

    /** So far every receipt of the plan has its record, when records are kept. */
    predicate AllNoted(completed: seq<Receipt>, made: seq<Record>) {
      features.retrodictive ==> |made| == |completed|
    }

    /** The outcome of the decision is written once, with whatever was completed, unless it would cite twice. */
    method AppendOutcome(s: Selection, completed: seq<Receipt>, made: seq<Record>, stop: Stop) returns (ok: bool)
      requires Flying(s, completed, made)
      modifies this`archive
      ensures Inv() && (ok <==> Distinct(completed))
      ensures ok ==>
              archive == old(archive).(outcomes :=
                    old(archive).outcomes + [Outcome(s.selected, s, completed, made, stop)])
      ensures !ok ==> archive == old(archive)
    {
      hide Shaped, Settled, Pending, Distinct, Cited, CitedRecords, OnTrack, StepCount, Filed, Filing;
      RefusalEnds(archive, s, features);
      var twice := HasRepeats(completed);
      var recordTwice := HasRepeats(made);
      RepeatedRecord(Snapshot(), completed, made);
      if twice || recordTwice { return false; }
      OutcomeWritten(Snapshot(), features.retrodictive, s, completed, made, stop);
      ghost var after := Written(Snapshot(), s, completed, made, stop);
      OutcomeEnds(archive, s, Outcome(s.selected, s, completed, made, stop), features);
      archive := archive.(outcomes := archive.outcomes + [Outcome(s.selected, s, completed, made, stop)]);
      assert Snapshot() == after;
      ok := true;
    }

    /** The world model keeps one record per receipt; asked again, it returns the one it has. */
    method AppendRecord(s: Selection, r: Receipt, rejects: Option<string>) returns (out: Result<Record, string>)
      modifies this`records
      ensures out.Err? <==> rejects.Some? && r !in old(Recorded())
      ensures out.Err? ==> records == old(records) && out.error == rejects.value
      ensures r in old(Recorded()) ==>
              records == old(records) && out.Ok? && out.value in records && out.value.receipt == r
      ensures out.Ok? && r !in old(Recorded()) ==>
                out.value == Record(s, s.selected, r, r.request.action, r.error)
                    && records == old(records) + [out.value]
    {
      for i := 0 to |records|
        invariant forall j :: 0 <= j < i ==> records[j].receipt != r
        invariant records == old(records)
      {
        if records[i].receipt == r { return Ok(records[i]); }
      }
      if rejects.Some? { return Err(rejects.value); }
      var record := Record(s, s.selected, r, r.request.action, r.error);
      records := records + [record];
      out := Ok(record);
    }

    /** Asks the controller for one action; a call that throws may have appended a receipt all the same. */
    method Ask(s: Selection, q: Request, e: Event, completed: seq<Receipt>, made: seq<Record>) returns (a: ActResult)
      requires Flying(s, completed, made)
      modifies controller
      ensures Flying(s, completed, made) && controller.Now() == old(controller.Now()).After(q, e)
      ensures a.Acted? <==> old(controller.Now()).Admits(q, e)
      ensures a.Acted? ==>
              a.receipt == old(controller.Now()).Answer(q, e) && a.receipt in controller.receipts
                  && a.receipt.request == q
      ensures controller.receipts == old(controller.receipts) +
              if a.Acted? && !a.replayed then [a.receipt]
              else if old(controller.Now()).Dispatches(q) && e.Lands? && !e.commits
                  then [Receipt(|old(controller.receipts)|, q, e.post, e.error)]
              else []
    {
      ghost var before := Snapshot();
      a := controller.Act(q, e);
      controller.ReceiptsAreDistinct();
      hide UnderWay, Distinct;
      ReceiptsAppended(before, features.retrodictive, s, completed, made, controller.receipts);
      assert Snapshot() == before.(receipts := controller.receipts);
    }

    /** A divergence opens a supervisor case, which may throw. */
    method OpenDivergence(step: PlanStep, t: Turn, r: Receipt, completed: seq<Receipt>)
      returns (abandoned: bool, exit: StepExit)
      ensures abandoned <==> Abandons(step, t, features, r)
      ensures abandoned ==> !exit.Advance?
    {
      exit := Advance;
      var misses := Diverges(step, t, r);
      abandoned := features.guarded && misses && !t.wins && t.caseThrows;
      if abandoned { exit := LeaveWith("SUPERVISOR_CASE_FAILED", completed); }
    }

    /** A receipt comes back fresh or replayed, or the step is over. */
    method Obtain(s: Selection, q: Request, t: Turn, completed: seq<Receipt>, made: seq<Record>)
      returns (r: Option<Receipt>, exit: StepExit)
      requires Flying(s, completed, made) && |completed| < StepCount(s.selected.draft.steps, features)
      requires q == RequestOf(s.selected.draft.steps[|completed|], t)
      modifies controller
      ensures controller.Now() == old(controller.Now()).After(q, t.event)
      ensures r.Some? <==> old(controller.Now()).Admits(q, t.event)
                           && !Abandons(s.selected.draft.steps[|completed|], t, features,
                                 old(controller.Now()).Answer(q, t.event))
      ensures r.Some? ==> r.value == old(controller.Now()).Answer(q, t.event) && Flying(s, completed + [r.value], made)
      ensures r.None? ==> Flying(s, completed, made) && !exit.Advance?
      ensures r.None? && features.guarded && !old(controller.Now()).Admits(q, t.event) ==>
              exit == Stopped(ACTION_REJECTED)
    {
      hide UnderWay, Books.Valid, Books.After, Books.Answer, Books.Admits, Books.Dispatches, Abandons, Filing, Leave;
      exit := Advance;
      var a := Ask(s, q, t.event, completed, made);
      if a.Threw? {
        if features.guarded { return None, Stopped(ACTION_REJECTED); }
        exit := LeaveWith(a.code, completed);
        return None, exit;
      }
      var abandoned;
      abandoned, exit := OpenDivergence(s.selected.draft.steps[|completed|], t, a.receipt, completed);
      if abandoned { return None, exit; }
      ReceiptObtained(Snapshot(), features.retrodictive, s, completed, made, a.receipt);
      r := Some(a.receipt);
    }

    /** What follows an obtained receipt: rule evidence, then the world-model record. */
    method Learn(s: Selection, step: PlanStep, r: Receipt, t: Turn, completed: seq<Receipt>, made: seq<Record>)
      returns (exit: StepExit, all: seq<Record>)
      requires Flying(s, completed, made) && completed != [] && r == completed[|completed| - 1]
      requires AllNoted(completed[..|completed| - 1], made)
      modifies this`records
      ensures Flying(s, completed, all) && Adds(old(records), records, s)
      ensures Recorded() == old(Recorded()) + (if Notes(t, features, r, old(Recorded())) then {r} else {})
      ensures exit == Verdict(step, t, features, r, old(Recorded()), completed)
      ensures exit.Advance? ==> AllNoted(completed, all)
    {
      hide UnderWay, StepCount;
      all := made;
      if t.rules.Some? {
        exit := LeaveWith(t.rules.value, completed);
        return;
      }
      if features.retrodictive {
        ghost var before := Snapshot();
        var out := AppendRecord(s, r, t.rejectsRecord);
        if out.Err? {
          exit := LeaveWith(out.error, completed);
          return;
        }
        Noted(before.records, records, out.value);
        if r in RecordedReceipts(before.records) {
          RecordFound(before, s, completed, made, out.value);
        } else {
          RecordMade(before, s, completed, made, out.value);
        }
        assert Snapshot() == before.(records := records);
        all := made + [out.value];
      }
      var misses := Diverges(step, t, r);
      exit := if features.guarded && misses then Stopped(DIVERGED) else if t.wins then Stopped(COMPLETED) else Advance;
    }

    lemma FlyingIsValid(s: Selection, completed: seq<Receipt>, made: seq<Record>)
      requires Flying(s, completed, made)
      ensures controller.Now().Valid() && Adds(records, records, s)
    {
    }

    /** What one turn leaves, once it is known not to be withheld. */
    method ActAndLearn(s: Selection, t: Turn, completed: seq<Receipt>, made: seq<Record>)
      returns (exit: StepExit, done: seq<Receipt>, all: seq<Record>)
      requires Flying(s, completed, made) && AllNoted(completed, made)
      requires |completed| < StepCount(s.selected.draft.steps, features)
      requires !Withheld(s.selected.draft.steps[|completed|], t, completed == [])
      modifies this, controller
      ensures Flying(s, done, all) && archive == old(archive) && Adds(old(records), records, s)
      ensures var c := TurnOf(s.selected.draft.steps[|completed|], t, features, old(Recorded()), completed,
                old(controller.Now()));
              done == c.completed && controller.Now() == c.books && Recorded() == c.recorded
                  && (exit.Advance? <==> c.advances)
      ensures exit.Advance? ==> |done| == |completed| + 1 && AllNoted(done, all)
      ensures observation == if done == completed then old(observation) else Observed(old(observation), done)
      ensures features.guarded && !old(controller.Now()).Admits(RequestOf(s.selected.draft.steps[|completed|], t),
                t.event) ==>
                exit == Stopped(ACTION_REJECTED)
      ensures done != completed ==>
                exit == Verdict(s.selected.draft.steps[|completed|], t, features, done[|completed|], old(Recorded()),
                      done)
    {
      hide *;
      StepCountWithin(s.selected.draft.steps, features);
      FlyingIsValid(s, completed, made);
      TurnCases(s.selected.draft.steps[|completed|], t, features, Recorded(), completed, controller.Now());
      done, all := completed, made;
      var step := s.selected.draft.steps[|completed|];
      var q := Request(step.expected, step.key, step.action, step.expectation, t.directive);
      assert q == RequestOf(step, t) by { RequestIs(step, t); }
      var r, gone := Obtain(s, q, t, completed, made);
      if r.None? { return gone, done, all; }
      done := completed + [r.value];
      assert done[..|done| - 1] == completed && done[|completed|] == r.value;
      observation := r.value.post;
      LastObserved(old(observation), done);
      exit, all := Learn(s, s.selected.draft.steps[|completed|], r.value, t, done, made);
    }

    lemma RequestIs(step: PlanStep, t: Turn)
      ensures RequestOf(step, t) == Request(step.expected, step.key, step.action, step.expectation, t.directive)
    {
    }

    lemma LastObserved(before: Hash, completed: seq<Receipt>)
      requires completed != []
      ensures Observed(before, completed) == completed[|completed| - 1].post
    {
    }

    /** One irreversible action of a plan, with everything that may go wrong around it. */
    method ExecuteStep(s: Selection, index: nat, t: Turn, completed: seq<Receipt>, made: seq<Record>)
      returns (exit: StepExit, done: seq<Receipt>, all: seq<Record>)
      requires Flying(s, completed, made) && AllNoted(completed, made)
      requires index == |completed| < StepCount(s.selected.draft.steps, features)
      modifies this, controller
      ensures Flying(s, done, all) && archive == old(archive) && Adds(old(records), records, s)
      ensures var c := TurnOf(s.selected.draft.steps[index], t, features, old(Recorded()), completed,
                old(controller.Now()));
              && done == c.completed && controller.Now() == c.books && Recorded() == c.recorded
                  && (exit.Advance? <==> c.advances)
              && |old(controller.receipts)| <= |controller.receipts| && index <= |done| <= index + 1
              && (done[index..] == controller.receipts[|old(controller.receipts)|..] <==> !c.loses && !c.replays)
      ensures exit.Advance? ==> |done| == index + 1 && AllNoted(done, all)
      ensures observation == if done == completed then old(observation) else Observed(old(observation), done)
      ensures var step := s.selected.draft.steps[index];
              && (!Withheld(step, t, index == 0) && features.guarded
                    && !old(controller.Now()).Admits(RequestOf(step, t), t.event) ==>
                    exit == Stopped(ACTION_REJECTED))
              && (|done| > index ==> exit == Verdict(step, t, features, done[index], old(Recorded()), done))
    {
      FlyingIsValid(s, completed, made);
      TurnAdds(s.selected.draft.steps[index], t, features, Recorded(), completed, controller.Now());
      hide Flying, StepCount, Adds, RecordedReceipts, Books.Valid, Books.Dispatches, Books.After, Books.Answer,
        Books.Admits, Verdict, Notes, Leave, Abandons;
      done, all := completed, made;
      var step := s.selected.draft.steps[index];
      if index > 0 && t.gate.Some? {
        exit := LeaveWith(t.gate.value, completed);
        return;
      }
      if step.directive.Some? && step.directive != t.directive {
        exit := LeaveWith("PLAN_SELECTION_MISMATCH", completed);
        return;
      }
      exit, done, all := ActAndLearn(s, t, completed, made);
    }

    ghost function CourseOf(s: Selection, w: World): Course
      reads this`records, controller
    {
      Fly(s.selected.draft.steps, w, features, Recorded(), [], controller.Now())
    }

    /** The steps of the plan in order, until one of them does not advance. */
    method RunSteps(s: Selection, w: World) returns (exit: StepExit, completed: seq<Receipt>, made: seq<Record>)
      requires Flying(s, [], [])
      modifies this, controller
      ensures Flying(s, completed, made) && archive == old(archive) && Adds(old(records), records, s)
      ensures var c := old(CourseOf(s, w));
              completed == c.completed && controller.Now() == c.books && Recorded() == c.recorded
                  && (exit.Advance? <==> c.advances)
      ensures observation == Observed(old(observation), completed)
    {
      hide Flying, Adds, TurnOf, RecordedReceipts, Leave, Verdict;
      var steps := s.selected.draft.steps;
      var count := if features.guarded then |steps| else if steps == [] then 0 else 1;
      completed, made, exit := [], [], Advance;
      ghost var whole, seen := CourseOf(s, w), false;
      AddsNothing(records, s);
      for index := 0 to count
        invariant Flying(s, completed, made) && archive == old(archive)
        invariant AllNoted(completed, made)
        invariant Adds(old(records), records, s) && observation == Observed(old(observation), completed)
        invariant exit.Advance? && |completed| == index
        invariant var rest := Fly(steps, w, features, Recorded(), completed, controller.Now());
                  whole == rest.(replays := seen || rest.replays)
      {
        ghost var before, one := records,
            TurnOf(steps[index], w.turn(index), features, Recorded(), completed, controller.Now());
        exit, completed, made := ExecuteStep(s, index, w.turn(index), completed, made);
        AddsMore(old(records), before, records, s);
        if !exit.Advance? { return; }
        seen := seen || one.replays;
      }
    }

    /** Runs the selected plan to its end, wherever that is, and writes its one outcome. */
    method ExecutePlan(s: Selection, w: World) returns (r: StepResult)
      requires Flying(s, [], [])
      modifies this, controller
      ensures Inv() && archive.candidates == old(archive).candidates && archive.selections == old(archive).selections
      ensures var c := old(CourseOf(s, w));
              && controller.Now() == c.books && Recorded() == c.recorded && Adds(old(records), records, s)
              && (if Distinct(c.completed) then WroteOutcome(old(archive).outcomes, archive.outcomes, s, c.completed)
                  else archive.outcomes == old(archive).outcomes && r.Failed?)
              && (r.Stepped? ==> r.completed == c.completed && EndsWith(archive.outcomes, s, r.completed, r.stop))
              && (c.advances && Distinct(c.completed) ==> r.Stepped? && r.stop == COMPLETED)
              && observation == Observed(old(observation), c.completed)
    {
      hide Flying, Inv, EndsWith, Distinct, Adds, Fly, RecordedReceipts, WroteOutcome;
      var exit, completed, made := RunSteps(s, w);
      var stop := match exit case Advance => COMPLETED case Stopped(x) => x case Thrown(_) => ACTION_REJECTED;
      var written := AppendOutcome(s, completed, made, stop);
      if written {
        WroteOne(old(archive).outcomes, archive.outcomes, s, completed, made, stop);
      }
      r := if !written then Failed("INVALID_PLAN_OUTCOME") else if exit.Thrown? then Failed(exit.code)
          else Stepped(stop, completed);
    }

    /** The decision gets as far as executing a plan: no gate, budget left, and something legal in a proper batch. */
    ghost predicate Opens(drafts: seq<Draft>, w: World)
      reads this`archive, this`observation
    {
      && w.turn(0).gate.None? && |archive.outcomes| < features.maxActions
      && Addable(drafts, w, archive, observation, features)
      && !w.capacity && exists c :: c in Candidates(drafts, w) && w.legal(c)
    }

    /** Offers the drafts and picks one, or leaves the archive as it was: an unselected batch is rolled back. */
    method Offer(drafts: seq<Draft>, w: World) returns (r: Result<Selection, string>)
      modifies this`archive
      ensures r.Ok? <==> old(Opens(drafts, w))
      ensures r.Err? ==> archive == old(archive)
      ensures r.Ok? ==>
                && Eligible(Candidates(drafts, w), w) != [] && r.value == Picked(Candidates(drafts, w), w, observation)
                && r.value.selected in r.value.offered && r.value.selected in r.value.eligible
                && archive == old(archive).(candidates := old(archive).candidates + r.value.offered, selections :=
                      old(archive).selections + [r.value])
    {
      if w.turn(0).gate.Some? { return Err(w.turn(0).gate.value); }
      if |archive.outcomes| >= features.maxActions { return Err("AVO_DECISION_BUDGET_EXHAUSTED"); }
      ghost var before := archive;
      var offered := AddCandidates(drafts, w);
      if offered.Err? { return Err(offered.error); }
      var prior := |archive.candidates| - |offered.value|;
      r := Select(offered.value, w);
      if r.Err? {
        archive := archive.(candidates := archive.candidates[..prior]);
        assert archive == before;
      }
    }

    /** The selection a decision would make. */
    ghost function ChosenBy(drafts: seq<Draft>, w: World): Selection
      requires Eligible(Candidates(drafts, w), w) != []
      reads this`observation
    {
      Picked(Candidates(drafts, w), w, observation)
    }

    lemma OfferFlies(before: Checkpoint, drafts: seq<Draft>, w: World, s: Selection)
      requires controller.Valid() && Shaped(before, features.retrodictive) && Settled(before, features.retrodictive)
      requires Filed(before.archive, features) && Snapshot() == TakenUp(before, s)
      requires Addable(drafts, w, before.archive, observation, features)
      requires Eligible(Candidates(drafts, w), w) != [] && s == Picked(Candidates(drafts, w), w, observation)
      ensures Flying(s, [], []) && s !in before.archive.selections && s.selected.draft in drafts
      ensures WellPlanned(s.selected.draft, features) && s.selected.draft.steps[0].expected == observation
    {
      hide Shaped, Settled, UnderWay, Distinct, Filed, Filing, WellPlanned, CandidatesFiled, SelectionsFiled;
      var offered, eligible := Candidates(drafts, w), Eligible(Candidates(drafts, w), w);
      EligibleIsDistinct(offered, w);
      assert eligible[w.pick(eligible) % |eligible|] in eligible;
      forall c | c in offered
        ensures c !in before.archive.candidates && WellPlanned(c.draft, features) && c.draft.base == observation {
        var i :| 0 <= i < |offered| && offered[i] == c;
        assert Proper(drafts[i], w, before.archive, observation, features);
      }
      SelectionBegins(before.archive, s, features);
      assert offered[0] in offered;
      Planned(s.selected.draft, features);
      PlanBegins(before, features.retrodictive, s);
      StepCountAny(s.selected.draft.steps, features);
    }

    lemma Planned(d: Draft, features: Features)
      requires WellPlanned(d, features)
      ensures d.steps != [] && d.steps[0].expected == d.base
    {
    }

    lemma StepCountAny(steps: seq<PlanStep>, features: Features)
      ensures StepCount(steps, features) >= 0
    {
    }

    /**
     * One decision. Every exit is accounted for: which receipts and records it adds, which outcome it writes,
     * and exactly when a checkpoint that binds is followed by one that does.
     */
    method StepWithCandidates(drafts: seq<Draft>, w: World) returns (r: StepResult)
      requires Inv()
      modifies this, controller
      ensures Inv()
      ensures !old(Opens(drafts, w)) ==>
              r.Failed? && Snapshot() == old(Snapshot()) && controller.Now() == old(controller.Now())
      ensures old(Opens(drafts, w)) ==>
                && Eligible(Candidates(drafts, w), w) != []
                && var s := old(ChosenBy(drafts, w));
                   var c := old(CourseOf(s, w));
                   && controller.Now() == c.books && Recorded() == c.recorded
                       && |old(controller.receipts)| <= |controller.receipts|
                   && archive.candidates == old(archive).candidates + Candidates(drafts, w)
                   && archive.selections == old(archive).selections + [s]
                   && Decided(old(Snapshot()), Snapshot(), s, c.completed)
                   && (r.Stepped? ==> r.completed == c.completed && EndsWith(archive.outcomes, s, r.completed, r.stop))
                   && (c.advances && Distinct(c.completed) ==> r.Stepped? && r.stop == COMPLETED)
                   && observation == Observed(old(observation), c.completed)
      ensures old(Opens(drafts, w)) ==>
                Accounts(old(Snapshot()), old(controller.Now()), old(observation), Snapshot(), observation,
                         old(CourseOf(ChosenBy(drafts, w), w)), features)
      ensures old(Opens(drafts, w)
                && Smooth(ChosenBy(drafts, w).selected.draft.steps, w, features, controller.Now())) ==>
                && r.Stepped? && r.stop == COMPLETED
                && AllExecuted(old(ChosenBy(drafts, w)).selected.draft.steps, r.completed, old(controller.receipts),
                      controller.receipts, features)
    {
      hide Distinct, Cited, Shaped, Settled, Addable, Fly, Bound, Doomed, Flying, Decided, WroteOutcome, EndsWith,
        RecordedReceipts, Accounts, Books.Valid, Filed, WellPlanned;
      ghost var before, books, stood := Snapshot(), controller.Now(), observation;
      var offered := Offer(drafts, w);
      if offered.Err? { return Failed(offered.error); }
      OfferFlies(before, drafts, w, offered.value);
      WithinLimit(offered.value.selected.draft, features);
      FiledIsShort(before.archive, features);
      ghost var course := CourseOf(offered.value, w);
      r := ExecutePlan(offered.value, w);
      DecisionFits(before, books, Snapshot(), features, w, offered.value, course);
      DecisionAccounts(before, books, Snapshot(), features, w, offered.value, course, stood);
      if Smooth(offered.value.selected.draft.steps, w, features, books) {
        SmoothDecision(before, books, Snapshot(), features, w, offered.value, course);
      }
    }

    /** A loop resumed from a checkpoint that loads and binds. */
    constructor Resume(controller: Controller, saved: Saved)
      requires controller.Valid() && controller.Now() == saved.core
      requires Binds(saved.Body(), saved.features.retrodictive) && Loads(saved.archive, saved.features)
               && OneEach(saved.records)
      ensures Inv() && Snapshot() == saved.Body() && Bound(saved.Body()) && this.controller == controller
      ensures features == saved.features && versions == saved.versions && observation == controller.observation
    {
      this.controller, features, versions := controller, saved.features, saved.versions;
      baseline, head, archive, records := saved.baseline, saved.head, saved.archive, saved.records;
      observation := controller.observation;
      new;
      controller.ReceiptsAreDistinct();
      ResumedFits(saved.Body(), features);
    }

    /**
     * A checkpoint is taken up exactly by a loop of the same features and versions, when it names the observation of
     * the controller, whose own checkpoint verifies, when archive and world model load, and when its bindings verify.
     */
    static method ResumeFrom(saved: Saved, features: Features, versions: string) returns (r: Option<ArcAvoLoop>)
      ensures r.Some? <==>
              && saved.features == features && saved.versions == versions && saved.observation == saved.core.observation
              && saved.core.Valid() && saved.core.Covers() && Loads(saved.archive, features) && OneEach(saved.records)
              && Binds(saved.Body(), features.retrodictive)
      ensures r.Some? ==>
                && fresh(r.value) && fresh(r.value.controller) && r.value.Inv() && r.value.Stands()
                    && Bound(saved.Body())
                && r.value.Snapshot() == saved.Body() && r.value.controller.Now() == saved.core
                && r.value.features == features && r.value.versions == versions
                    && r.value.observation == saved.observation
    {
      hide Binds, Bound, Shaped, Settled, Books.Valid, Books.Covers, Loads, OneEach, Standing, Filed, Coherent;
      if saved.features != features || saved.versions != versions { return None; }
      var core := LoadCore(saved.core);
      if !core || saved.observation != saved.core.observation { return None; }
      var archive := LoadArchive(saved.archive, features);
      if !archive { return None; }
      var records := LoadRecords(saved.records);
      if !records { return None; }
      NumberedIsDistinct(saved.core);
      OneEachIsCoherent(saved.Body());
      var ok := VerifyBindings(saved.Body(), features.retrodictive);
      if !ok { return None; }
      var controller := new Controller.Restore(saved.core);
      var loop := new ArcAvoLoop.Resume(controller, saved);
      BoundStands(saved.Body(), saved.observation);
      r := Some(loop);
    }

    lemma CoversIs(b: Books)
      ensures b.Covers() <==> |b.ledger| == |b.receipts|
    {
    }

    /**
     * A checkpoint is emitted exactly when every receipt of the controller has its result and the bindings verify, that
     * is, when citations are in step and no record is stray.
     */
    method TakeCheckpoint() returns (r: Option<Saved>)
      requires Inv()
      ensures r.Some? <==> Binds(Snapshot(), features.retrodictive) && !Uncovered(Snapshot(), controller.ledger)
      ensures r.Some? <==> Bound(Snapshot()) && !Uncovered(Snapshot(), controller.ledger)
      ensures r.Some? ==>
              r.value == Saved(controller.Now(), baseline, head, archive, records, features, versions, observation)
      ensures Doomed(Snapshot(), controller.ledger) ==> r.None?
    {
      CoversAll(controller.Now(), Snapshot());
      hide Binds, Cited, Bound, Doomed, BaselineOk, Books.Valid, Books.Covers, Uncovered;
      CoversIs(controller.Now());
      if |controller.ledger| != |controller.receipts| { return None; }
      ShapedIsCoherent(Snapshot(), features.retrodictive);
      var ok := VerifyBindings(Snapshot(), features.retrodictive);
      BindsIsBound(Snapshot(), features.retrodictive);
      if Doomed(Snapshot(), controller.ledger) {
        DoomedIsUnbound(Snapshot(), controller.ledger);
      }
      r := if ok then Some(Saved(controller.Now(), baseline, head, archive, records, features, versions, observation))
          else None;
    }

  }

  /** What is written out: the controller's checkpoint, the loop's body, its configuration, and where it stands. */
  datatype Saved = Saved(
    core: Books, baseline: nat, head: Option<Receipt>, archive: Archive, records: seq<Record>,
    features: Features, versions: string, observation: Hash)
  {
    function Body(): Checkpoint {
      Checkpoint(core.receipts, baseline, head, archive, records)
    }
  }

  lemma WithinLimit(d: Draft, features: Features)
    requires WellPlanned(d, features)
    ensures 1 <= |d.steps| <= features.StepLimit()
  {
  }

  lemma FiledIsShort(a: Archive, features: Features)
    requires Filed(a, features)
    ensures |a.outcomes| <= |a.selections|
  {
    hide CandidatesFiled, SelectionsFiled, OutcomeFiled;
  }

  lemma OneEachIsCoherent(cp: Checkpoint)
    requires Distinct(cp.receipts) && OneEach(cp.records)
    ensures Coherent(cp)
  {
  }

  lemma BoundStands(cp: Checkpoint, observation: Hash)
    requires Bound(cp)
    ensures Standing(cp, observation, observation)
  {
    hide Cited, Stray;
    BoundIsCaughtUp(cp);
  }

  /** As many results as receipts means one for each. */
  lemma CoversAll(b: Books, cp: Checkpoint)
    requires b.Valid() && cp.receipts == b.receipts
    ensures b.Covers() <==> !Uncovered(cp, b.ledger)
  {
    NumberedIsDistinct(b);
    DistinctCount(b.receipts);
    LedgerCount(b);
    assert b.ledger.Values <= Elements(b.receipts) by {
      forall r | r in b.ledger.Values ensures r in b.receipts {
        var k :| k in b.ledger && b.ledger[k] == r;
      }
    }
    if b.Covers() {
      SameSizeSame(b.ledger.Values, Elements(b.receipts));
    }
    if !Uncovered(cp, b.ledger) {
      assert Elements(b.receipts) == b.ledger.Values;
    }
  }

  lemma SameSizeSame<T>(xs: set<T>, ys: set<T>)
    requires xs <= ys && |xs| == |ys|
    ensures xs == ys
  {
    assert ys == xs + (ys - xs);
    assert |ys| == |xs| + |ys - xs|;
  }

  lemma LedgerCount(b: Books)
    requires b.Valid()
    ensures |b.ledger.Values| == |b.ledger|
  {
    InjectiveCount(b.ledger);
  }

  lemma {:induction false} InjectiveCount(m: map<string, Receipt>)
    requires forall k :: k in m ==> m[k].request.key == k
    ensures |m.Values| == |m|
    decreases |m|
  {
    if m != map[] {
      var k :| k in m;
      var rest := m - {k};
      InjectiveCount(rest);
      assert m.Keys == rest.Keys + {k} && |m| == |m.Keys| && |rest| == |rest.Keys|;
      assert m.Values == rest.Values + {m[k]};
      assert m[k] !in rest.Values;
    }
  }

  lemma RepeatedRecord(cp: Checkpoint, completed: seq<Receipt>, made: seq<Record>)
    requires Made(cp, completed, made)
    ensures Distinct(completed) ==> Distinct(made)
  {
  }

  lemma Noted(before: seq<Record>, after: seq<Record>, record: Record)
    requires after == before + [record] || (after == before && record in before)
    ensures RecordedReceipts(after) == RecordedReceipts(before) + {record.receipt}
    ensures record.receipt !in RecordedReceipts(before) ==> forall i :: 0 <= i < |before| ==>
            before[i].receipt != record.receipt
  {
    if after == before + [record] {
      assert after[|before|] == record;
      forall r | r in RecordedReceipts(before) ensures r in RecordedReceipts(after) {
        var i :| 0 <= i < |before| && before[i].receipt == r;
        assert after[i] == before[i];
      }
    } else {
      var i :| 0 <= i < |before| && before[i] == record;
    }
  }

  /** The records made since are those of the decision. */
  ghost predicate Adds(before: seq<Record>, after: seq<Record>, s: Selection) {
    before <= after && forall i :: |before| <= i < |after| ==> after[i].selection == s
  }

  lemma AddsNothing(records: seq<Record>, s: Selection)
    ensures Adds(records, records, s)
  {
  }

  lemma AddsMore(first: seq<Record>, second: seq<Record>, third: seq<Record>, s: Selection)
    requires Adds(first, second, s) && Adds(second, third, s)
    ensures Adds(first, third, s)
  {
  }

  /** The last outcome is the one the decision reports. */
  ghost predicate EndsWith(outcomes: seq<Outcome>, s: Selection, completed: seq<Receipt>, stop: Stop) {
    && outcomes != []
    && var o := outcomes[|outcomes| - 1];
       o.candidate == s.selected && o.selection == s && o.receipts == completed && o.stop == stop
  }

  lemma WroteOne(before: seq<Outcome>, after: seq<Outcome>, s: Selection, completed: seq<Receipt>, made: seq<Record>,
      stop: Stop)
    requires after == before + [Outcome(s.selected, s, completed, made, stop)]
    ensures WroteOutcome(before, after, s, completed) && EndsWith(after, s, completed, stop)
  {
  }

  /** The plan of the decision flew from these books, and its outcome was written unless it would cite twice. */
  ghost predicate PlanDone(before: Checkpoint, after: Checkpoint, s: Selection, c: Course) {
    && after.baseline == before.baseline && after.receipts == c.books.receipts && Adds(before.records, after.records, s)
    && s !in before.archive.selections
    && (if Distinct(c.completed) then WroteOutcome(before.archive.outcomes, after.archive.outcomes, s, c.completed)
        else after.archive.outcomes == before.archive.outcomes)
  }

  lemma DecisionFits(before: Checkpoint, books: Books, after: Checkpoint, features: Features, w: World, s: Selection,
      c: Course)
    requires books.Valid() && before.receipts == books.receipts && PlanDone(before, after, s, c)
    requires c == Fly(s.selected.draft.steps, w, features, RecordedReceipts(before.records), [], books)
    ensures Continues([], books, c) && Decided(before, after, s, c.completed) && |before.receipts| <= |after.receipts|
    ensures c.completed == Appended(books, c.books) <==> !c.loses && !c.replays
  {
    hide Fly, RecordedReceipts, Distinct, WroteOutcome;
    CompletedIsAppended(s.selected.draft.steps, w, features, RecordedReceipts(before.records), [], books);
    NumberedIsDistinct(c.books);
    assert c.completed[0..] == c.completed;
  }

  lemma DecisionBinds(before: Checkpoint, books: Books, after: Checkpoint, features: Features, w: World, s: Selection,
      c: Course)
    requires Shaped(before, features.retrodictive) && books.Valid() && before.receipts == books.receipts
    requires PlanDone(before, after, s, c)
    requires c == Fly(s.selected.draft.steps, w, features, RecordedReceipts(before.records), [], books) && Bound(before)
    ensures Bound(after) <==>
            (!c.loses && !c.replays) || (!Distinct(c.completed) && after.receipts == before.receipts
                  && after.records == before.records)
  {
    DecisionFits(before, books, after, features, w, s, c);
    hide *;
    AppendedIsRest(before, books, after, s, c);
    BoundStep(before, after, features.retrodictive, s, c.completed, Appended(books, c.books));
  }

  lemma AppendedIsRest(before: Checkpoint, books: Books, after: Checkpoint, s: Selection, c: Course)
    requires PlanDone(before, after, s, c) && Continues([], books, c) && before.receipts == books.receipts
    ensures after.receipts == before.receipts + Appended(books, c.books)
  {
  }

  lemma DecisionSettles(before: Checkpoint, books: Books, after: Checkpoint, features: Features, w: World, s: Selection,
      c: Course)
    requires Shaped(before, features.retrodictive) && books.Valid() && before.receipts == books.receipts
    requires PlanDone(before, after, s, c)
    requires c == Fly(s.selected.draft.steps, w, features, RecordedReceipts(before.records), [], books)
    requires InOrder(before, Cited(before.archive.outcomes)) && !Stray(before)
    ensures |before.receipts| <= |after.receipts|
    ensures Bound(after) <==>
            if Distinct(c.completed) then c.completed == Uncited(before) + Since(before, after)
            else Uncited(before) + Since(before, after) == [] && after.records == before.records
  {
    DecisionFits(before, books, after, features, w, s, c);
    hide *;
    BoundAfter(before, after, features.retrodictive, s, c.completed);
    DecidedRecords(before, after, s, c.completed);
  }

  lemma DecidedRecords(before: Checkpoint, after: Checkpoint, s: Selection, completed: seq<Receipt>)
    requires Decided(before, after, s, completed)
    ensures after.records == before.records <==> |after.records| == |before.records|
  {
  }

  lemma DecisionDooms(before: Checkpoint, books: Books, after: Checkpoint, features: Features, w: World, s: Selection,
      c: Course)
    requires Shaped(before, features.retrodictive) && books.Valid() && before.receipts == books.receipts
    requires PlanDone(before, after, s, c)
    requires c == Fly(s.selected.draft.steps, w, features, RecordedReceipts(before.records), [], books)
    ensures Distinct(c.completed) ==> forall r :: r in c.completed && Spent(before, r) ==> Doomed(after, c.books.ledger)
    ensures Doomed(before, books.ledger) ==> Doomed(after, c.books.ledger)
  {
    DecisionFits(before, books, after, features, w, s, c);
    hide Fly, Shaped, Doomed, RecordedReceipts, Distinct, WroteOutcome, Books.Valid, Spent, Decided, PlanDone;
    if Distinct(c.completed) {
      forall r | r in c.completed && Spent(before, r) ensures Doomed(after, c.books.ledger) {
        SpentDooms(before, after, s, c.completed, c.books.ledger, r);
      }
    }
    if Doomed(before, books.ledger) {
      Numbered(books);
      assert c.completed[0..] == c.completed;
      DoomedAfter(before, after, features.retrodictive, s, c.completed, books.ledger, c.books.ledger);
    }
  }

  lemma DecisionAccounts(before: Checkpoint, books: Books, after: Checkpoint, features: Features, w: World,
      s: Selection, c: Course, stood: Hash)
    requires Shaped(before, features.retrodictive) && Settled(after, features.retrodictive)
    requires books.Valid() && before.receipts == books.receipts && PlanDone(before, after, s, c)
    requires c == Fly(s.selected.draft.steps, w, features, RecordedReceipts(before.records), [], books)
    requires |before.archive.outcomes| < features.maxActions && s.observation == stood
    requires 1 <= |s.selected.draft.steps| <= features.StepLimit() && s.selected.draft.steps[0].expected == stood
    requires |before.archive.outcomes| <= |before.archive.selections|
    requires |after.archive.selections| == |before.archive.selections| + 1
    ensures Accounts(before, books, stood, after, Observed(stood, c.completed), c, features)
  {
    hide Shaped, Settled, PlanDone, Fly, RecordedReceipts, Bound, InOrder, Stray, Cited, Doomed, Uncovered, Mendable,
      Stuck, AtFront, Standing, Front, Uncited, Since, Spent, Distinct, Books.Valid, Continues, Decided, Observed;
    DecisionFits(before, books, after, features, w, s, c);
    DecisionDooms(before, books, after, features, w, s, c);
    PlanReceipts(before, after, s, c);
    ContinuesParts([], books, c);
    OutcomeCounts(before, after, s, c);
    if Standing(before, stood, books.observation) {
      DecisionStands(before, books, after, features, w, s, c, stood);
    }
    if Bound(before) {
      DecisionBinds(before, books, after, features, w, s, c);
    }
    if InOrder(before, Cited(before.archive.outcomes)) && !Stray(before) {
      DecisionSettles(before, books, after, features, w, s, c);
    }
    if InOrder(before, Cited(before.archive.outcomes)) && InOrder(after, Cited(after.archive.outcomes)) {
      DecisionFronts(before, books, after, features, w, s, c, stood);
    }
    if !Bound(before) && Bound(after) && !Uncovered(after, c.books.ledger) {
      DecisionMends(before, books, after, features, w, s, c);
    }
    if Stuck(before, stood, books) {
      DecisionStuck(before, books, after, features, w, s, c, stood);
    }
  }

  lemma OutcomeCounts(before: Checkpoint, after: Checkpoint, s: Selection, c: Course)
    requires PlanDone(before, after, s, c)
    ensures |after.archive.outcomes| == |before.archive.outcomes| + if Distinct(c.completed) then 1 else 0
  {
    hide Distinct, Adds;
  }

  /** Citations that are in order after a decision were in order before it. */
  lemma OrderedBefore(before: Checkpoint, after: Checkpoint, retrodictive: bool, s: Selection, completed: seq<Receipt>)
    requires Shaped(before, retrodictive) && Decided(before, after, s, completed)
    requires InOrder(after, Cited(after.archive.outcomes))
    ensures InOrder(before, Cited(before.archive.outcomes))
  {
    var cited := Cited(before.archive.outcomes);
    BaselineFits(before);
    OrderIsOld(cited, before, after.receipts);
    DecidedCites(before, after, s, completed);
    hide Cited, Distinct, Shaped, Loop;
    FrontInOrder(after, cited, if Distinct(completed) then completed else []);
    SameOrder(before.(receipts := after.receipts), after, cited);
  }

  lemma DecisionStands(before: Checkpoint, books: Books, after: Checkpoint, features: Features, w: World, s: Selection,
      c: Course, stood: Hash)
    requires Shaped(before, features.retrodictive) && books.Valid() && before.receipts == books.receipts
    requires PlanDone(before, after, s, c)
    requires c == Fly(s.selected.draft.steps, w, features, RecordedReceipts(before.records), [], books)
    requires |before.archive.outcomes| <= |before.archive.selections|
    requires |after.archive.selections| == |before.archive.selections| + 1
    requires Standing(before, stood, books.observation)
    ensures Standing(after, Observed(stood, c.completed), c.books.observation)
  {
    hide Shaped, PlanDone, Fly, RecordedReceipts, InOrder, Cited, AtFront, Front, Distinct, Books.Valid, Continues,
      Decided, Observed;
    DecisionFits(before, books, after, features, w, s, c);
    OutcomeCounts(before, after, s, c);
    if !Lacking(after.archive) && InOrder(after, Cited(after.archive.outcomes)) {
      OrderedBefore(before, after, features.retrodictive, s, c.completed);
      DecisionFronts(before, books, after, features, w, s, c, stood);
    }
  }

  lemma DecisionFronts(before: Checkpoint, books: Books, after: Checkpoint, features: Features, w: World, s: Selection,
      c: Course, observation: Hash)
    requires books.Valid() && before.receipts == books.receipts && PlanDone(before, after, s, c)
    requires c == Fly(s.selected.draft.steps, w, features, RecordedReceipts(before.records), [], books)
    requires InOrder(before, Cited(before.archive.outcomes)) && InOrder(after, Cited(after.archive.outcomes))
    ensures AtFront(after, Observed(observation, c.completed), c.books.observation) <==>
            if Distinct(c.completed) then c.completed != [] || AtFront(before, observation, books.observation)
            else Observed(observation, c.completed) == Front(before, books.observation)
  {
    hide *;
    DecisionFits(before, books, after, features, w, s, c);
    ContinuesParts([], books, c);
    PlanReceipts(before, after, s, c);
    AtFrontAfter(before, after, s, c.completed, books, c.books, observation);
  }

  lemma PlanReceipts(before: Checkpoint, after: Checkpoint, s: Selection, c: Course)
    requires PlanDone(before, after, s, c)
    ensures after.receipts == c.books.receipts
  {
  }

  lemma {:induction false} FlightLength(steps: seq<PlanStep>, w: World, features: Features, recorded: set<Receipt>,
      completed: seq<Receipt>, b: Books)
    requires |completed| <= StepCount(steps, features) && b.Valid()
    ensures |Fly(steps, w, features, recorded, completed, b).completed| <= StepCount(steps, features)
    decreases StepCount(steps, features) - |completed|
  {
    hide TurnOf, Books.Valid, StepCount;
    if |completed| < StepCount(steps, features) {
      StepCountWithin(steps, features);
      var one := TurnOf(steps[|completed|], w.turn(|completed|), features, recorded, completed, b);
      TurnAdds(steps[|completed|], w.turn(|completed|), features, recorded, completed, b);
      TurnIsValid(steps[|completed|], w.turn(|completed|), features, recorded, completed, b);
      if one.advances {
        FlightLength(steps, w, features, one.recorded, one.completed, one.books);
      }
    }
  }

  lemma StepCountWithin(steps: seq<PlanStep>, features: Features)
    ensures StepCount(steps, features) <= |steps| && (!features.guarded ==> StepCount(steps, features) <= 1)
  {
  }

  lemma TurnIsValid(step: PlanStep, t: Turn, features: Features, recorded: set<Receipt>, completed: seq<Receipt>,
      b: Books)
    requires b.Valid()
    ensures TurnOf(step, t, features, recorded, completed, b).books.Valid()
  {
    hide *;
    TurnContinues(step, t, features, recorded, completed, b);
    ContinuesParts(completed, b, TurnOf(step, t, features, recorded, completed, b));
  }

  lemma DecisionMends(before: Checkpoint, books: Books, after: Checkpoint, features: Features, w: World, s: Selection,
      c: Course)
    requires Shaped(before, features.retrodictive) && Settled(after, features.retrodictive)
    requires books.Valid() && before.receipts == books.receipts && PlanDone(before, after, s, c)
    requires c == Fly(s.selected.draft.steps, w, features, RecordedReceipts(before.records), [], books)
    requires !Bound(before) && Bound(after) && !Uncovered(after, c.books.ledger)
    requires |before.archive.outcomes| < features.maxActions && |s.selected.draft.steps| <= features.StepLimit()
    ensures Mendable(before, s.observation, books, features)
  {
    hide *;
    DecisionFits(before, books, after, features, w, s, c);
    DecisionDooms(before, books, after, features, w, s, c);
    if Doomed(after, c.books.ledger) {
      DoomedIsUnbound(after, c.books.ledger);
    }
    NoSteps(s.selected.draft.steps, features);
    FlightLength(s.selected.draft.steps, w, features, RecordedReceipts(before.records), [], books);
    StepCountWithin(s.selected.draft.steps, features);
    MendedWasMendable(before, after, features, s, c.completed, books, c.books);
  }

  lemma NoSteps(steps: seq<PlanStep>, features: Features)
    ensures 0 <= StepCount(steps, features)
  {
  }

  lemma DecisionStuck(before: Checkpoint, books: Books, after: Checkpoint, features: Features, w: World, s: Selection,
      c: Course, observation: Hash)
    requires Shaped(before, features.retrodictive) && books.Valid() && before.receipts == books.receipts
    requires PlanDone(before, after, s, c)
    requires c == Fly(s.selected.draft.steps, w, features, RecordedReceipts(before.records), [], books)
    requires Stuck(before, observation, books)
    requires s.selected.draft.steps != [] && s.selected.draft.steps[0].expected == observation
    ensures Stuck(after, Observed(observation, c.completed), c.books)
  {
    DecisionFits(before, books, after, features, w, s, c);
    StuckCourse(s.selected.draft.steps, w, features, RecordedReceipts(before.records), books);
    hide Shaped, Bound, Fly, RecordedReceipts, Decided, Books.Valid, Continues;
    PlanReceipts(before, after, s, c);
    NothingDecided(before, after, features.retrodictive, s);
  }

  /** A receipt that is cited already, or is from before the baseline. */
  ghost predicate Spent(cp: Checkpoint, r: Receipt) {
    cp.baseline <= |cp.receipts| && (r in Cited(cp.archive.outcomes) || r in cp.receipts[..cp.baseline])
  }

  lemma SpentDooms(before: Checkpoint, after: Checkpoint, s: Selection, completed: seq<Receipt>,
      ledger: map<string, Receipt>, r: Receipt)
    requires Decided(before, after, s, completed) && Distinct(completed) && r in completed && Spent(before, r)
    ensures Doomed(after, ledger)
  {
    hide Decided, Doomed, Distinct;
    BadCitationDooms(before, after, s, completed, ledger, r);
  }

  /** Every step of the plan was executed, each by one new receipt of the controller. */
  ghost predicate AllExecuted(steps: seq<PlanStep>, completed: seq<Receipt>, before: seq<Receipt>, after: seq<Receipt>,
      features: Features) {
    && |completed| == StepCount(steps, features) <= |steps|
    && after == before + completed
    && forall j :: 0 <= j < |completed| ==> Executes(completed[j], steps[j])
  }

  lemma SmoothDecision(before: Checkpoint, books: Books, after: Checkpoint, features: Features, w: World, s: Selection,
      c: Course)
    requires books.Valid() && before.receipts == books.receipts && PlanDone(before, after, s, c)
    requires c == Fly(s.selected.draft.steps, w, features, RecordedReceipts(before.records), [], books)
    requires Smooth(s.selected.draft.steps, w, features, books)
    ensures c.advances && Distinct(c.completed)
    ensures AllExecuted(s.selected.draft.steps, c.completed, before.receipts, after.receipts, features)
  {
    hide Fly, Books.Valid, WroteOutcome, Distinct, Executes, RecordedReceipts, Smooth;
    var steps, recorded := s.selected.draft.steps, RecordedReceipts(before.records);
    CompletedIsAppended(steps, w, features, recorded, [], books);
    SmoothStarts(steps, w, features, books);
    SmoothCourse(steps, w, features, recorded, [], books, books);
    NumberedIsDistinct(c.books);
    assert c.completed[0..] == c.completed;
    assert c.books.receipts == books.receipts + c.completed;
    SuffixIsDistinct(books.receipts, c.completed);
  }

  lemma SmoothStarts(steps: seq<PlanStep>, w: World, features: Features, b: Books)
    requires Smooth(steps, w, features, b)
    ensures !b.faulted && Some(b.observation) == Reached(w, b.observation, 0) && forall i :: 0 <= i < |steps| ==>
            steps[i].key !in b.ledger
  {
  }

  lemma Numbered(b: Books)
    requires b.Valid()
    ensures forall i :: 0 <= i < |b.receipts| ==> b.receipts[i].sequence == i
  {
  }

  lemma NumberedIsDistinct(b: Books)
    requires b.Valid()
    ensures Distinct(b.receipts)
  {
  }

  lemma BoundStep(before: Checkpoint, after: Checkpoint, retrodictive: bool, s: Selection, completed: seq<Receipt>,
      appended: seq<Receipt>)
    requires Shaped(before, retrodictive) && Decided(before, after, s, completed) && Bound(before)
    requires after.receipts == before.receipts + appended
    ensures Bound(after) <==>
            completed == appended || (!Distinct(completed) && after.receipts == before.receipts
                  && after.records == before.records)
  {
    BoundIsCaughtUp(before);
    hide Cited, Stray, Shaped, Distinct, Bound, Uncited, InOrder;
    BoundAfter(before, after, retrodictive, s, completed);
    SuffixIsDistinct(before.receipts, appended);
    assert Since(before, after) == appended && [] + appended == appended;
    hide Decided;
    SamePrefix(before.records, after.records);
    SamePrefix(before.receipts, after.receipts);
  }

  lemma SamePrefix<T>(xs: seq<T>, ys: seq<T>)
    requires xs <= ys
    ensures xs == ys <==> |xs| == |ys|
  {
  }

  lemma BoundIsCaughtUp(cp: Checkpoint)
    requires Bound(cp)
    ensures InOrder(cp, Cited(cp.archive.outcomes)) && !Stray(cp) && Uncited(cp) == []
  {
    hide Cited, Stray;
  }

  lemma SuffixIsDistinct<T(!new)>(xs: seq<T>, ys: seq<T>)
    requires Distinct(xs + ys)
    ensures Distinct(ys)
  {
    assert forall i :: 0 <= i < |ys| ==> ys[i] == (xs + ys)[|xs| + i];
  }

  lemma ResumedFits(cp: Checkpoint, features: Features)
    requires Binds(cp, features.retrodictive) && Loads(cp.archive, features) && OneEach(cp.records)
             && Distinct(cp.receipts)
    ensures Shaped(cp, features.retrodictive) && Settled(cp, features.retrodictive) && Bound(cp)
            && Filed(cp.archive, features)
  {
    hide Cited, CitedRecords, Distinct, FollowsPlan, Stray, CandidatesFiled, OneEach, OutcomeFiled;
    assert Follows(cp, features.retrodictive);
    BindsIsBound(cp, features.retrodictive);
    forall r | r in Cited(cp.archive.outcomes) ensures r in cp.receipts {
      assert r in Loop(cp);
    }
    forall i | 0 <= i < |cp.archive.outcomes| ensures cp.archive.outcomes[i].selection in cp.archive.selections {
      assert OutcomeBound(cp.archive.outcomes[i], cp.archive);
    }
    forall i | 0 <= i < |cp.archive.selections|
      ensures SelectionFiled(cp.archive.selections[i], cp.archive.candidates, features) {}
  }

  lemma ShapedIsCoherent(cp: Checkpoint, retrodictive: bool)
    requires Shaped(cp, retrodictive)
    ensures Coherent(cp)
  {
  }
}
