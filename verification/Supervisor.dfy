// Supervisor directives (packages/arc-agi-3/src/checkpoint.ts, `validateSupervisorState`) and the
// controller steps that produce them (controller.ts). A directive governs a window of receipts.
module Supervisor {
  import opened Collections
  import opened Wrappers

  datatype Mode = STOP | RESET | CONTINUE

  datatype State = NOT_PLAYED | NOT_FINISHED | WIN | GAME_OVER

  datatype Sight = Sight(hash: string, state: State)

  /** A directive is named after what it decides: the hash of its body is a free term. */
  datatype DirectiveId = DirectiveId(caseId: string, commit: string)

  /** Receipt number `sequence`; `resets` says its action is RESET, `edge` names its observable edge. */
  datatype Receipt = Receipt(sequence: nat, directive: Option<DirectiveId>, edge: string, resets: bool)

  datatype Case = Case(id: string, open: bool, openedAt: int)

  datatype Directive = Directive(
    id: DirectiveId, caseId: string, commit: string, mode: Mode, budget: int, expires: int,
    committedAt: int, seen: string, prohibited: set<string>)

  /** `sights[k]` is the observation after the first `k` receipts. */
  datatype Log = Log(receipts: seq<Receipt>, sights: seq<Sight>, cases: seq<Case>, directives: seq<Directive>,
        active: Option<DirectiveId>)

  const MAX_RECORDS: nat := 10000
  const MAX_BUDGET: int := 10000

  ghost predicate Numbered(receipts: seq<Receipt>) {
    forall i :: 0 <= i < |receipts| ==> receipts[i].sequence == i + 1
  }

  // ---------------------------------------------------------------- which directive governs a receipt

  ghost predicate InCommitOrder(ds: seq<Directive>) {
    forall i, j :: 0 <= i <= j < |ds| ==> ds[i].committedAt <= ds[j].committedAt
  }

  /** Directive `k` is in force after `n` receipts: the latest committed by then, and a STOP or not yet expired. */
  ghost predicate Governs(ds: seq<Directive>, k: int, n: int) {
    && 0 <= k < |ds| && ds[k].committedAt <= n
    && (forall j :: k < j < |ds| ==> ds[j].committedAt > n)
    && (ds[k].mode == STOP || n < ds[k].committedAt + ds[k].expires)
  }

  /**
   * The action after `n` receipts names the directive in force and keeps to it: to a budget of actions counted from
   * its commit, to the edges it leaves open, and to its mode. With no directive in force it names none.
   */
  ghost predicate Obeys(ds: seq<Directive>, r: Receipt, n: int) {
    && (forall k :: Governs(ds, k, n) ==>
          && r.directive == Some(ds[k].id)
          && ds[k].mode != STOP
          && n < ds[k].committedAt + ds[k].budget
          && r.edge !in ds[k].prohibited
          && (ds[k].mode == RESET ==> r.resets))
    && ((forall k :: !Governs(ds, k, n)) ==> r.directive == None)
  }

  /** The number of directives committed before receipt `s`. */
  ghost function CommittedBefore(ds: seq<Directive>, s: int): (n: nat)
    ensures n <= |ds|
  {
    if ds == [] then 0
    else CommittedBefore(ds[..|ds| - 1], s) + if ds[|ds| - 1].committedAt < s then 1 else 0
  }

  /** The latest directive committed before receipt `s`, unless it has run out. */
  ghost function ActiveAt(ds: seq<Directive>, s: int): Option<Directive> {
    var n := CommittedBefore(ds, s);
    if n == 0 then None
    else if ds[n - 1].mode == STOP || s - 1 - ds[n - 1].committedAt < ds[n - 1].expires then Some(ds[n - 1])
    else None
  }

  lemma {:induction false} AllBefore(ds: seq<Directive>, s: int)
    requires forall k :: 0 <= k < |ds| ==> ds[k].committedAt < s
    ensures CommittedBefore(ds, s) == |ds|
  {
    if ds != [] {
      AllBefore(ds[..|ds| - 1], s);
    }
  }

  lemma {:induction false} LatestIsLast(ds: seq<Directive>, s: int)
    requires InCommitOrder(ds)
    ensures forall k :: 0 <= k < |ds| ==> (k < CommittedBefore(ds, s) <==> ds[k].committedAt < s)
    decreases |ds|
  {
    if ds != [] {
      var n := |ds| - 1;
      LatestIsLast(ds[..n], s);
      if ds[n].committedAt < s {
        AllBefore(ds[..n], s);
      }
    }
  }

  ghost predicate Permits(d: Directive, r: Receipt) {
    && d.mode != STOP
    && r.sequence - 1 - d.committedAt < d.budget
    && r.edge !in d.prohibited
    && (d.mode == RESET ==> r.resets)
  }

  ghost predicate ReceiptOk(ds: seq<Directive>, r: Receipt) {
    var active := ActiveAt(ds, r.sequence);
    match active
    case None => r.directive == None
    case Some(d) => r.directive == Some(d.id) && Permits(d, r)
  }

  lemma GovernsIsActive(ds: seq<Directive>, n: int)
    requires forall k :: 0 <= k < |ds| ==> (k < CommittedBefore(ds, n + 1) <==> ds[k].committedAt < n + 1)
    ensures forall k :: Governs(ds, k, n) <==>
              0 <= k < |ds| && k == CommittedBefore(ds, n + 1) - 1 && ActiveAt(ds, n + 1) == Some(ds[k])
    ensures (forall k :: !Governs(ds, k, n)) <==> ActiveAt(ds, n + 1) == None
  {
    hide CommittedBefore;
    var k := CommittedBefore(ds, n + 1) - 1;
    assert Governs(ds, k, n) <==> ActiveAt(ds, n + 1).Some?;
  }

  lemma ObeysIsOk(ds: seq<Directive>, r: Receipt)
    requires forall k :: 0 <= k < |ds| ==> (k < CommittedBefore(ds, r.sequence) <==> ds[k].committedAt < r.sequence)
    ensures Obeys(ds, r, r.sequence - 1) <==> ReceiptOk(ds, r)
  {
    hide CommittedBefore, Governs;
    var n := r.sequence - 1;
    GovernsIsActive(ds, n);
    assert ActiveAt(ds, n + 1).Some? ==> Governs(ds, CommittedBefore(ds, n + 1) - 1, n);
  }

  /** The one-pass sweep with a moving cursor accepts exactly when every receipt obeys the directive in force. */
  method Sweep(ds: seq<Directive>, receipts: seq<Receipt>) returns (ok: bool)
    requires InCommitOrder(ds) && Numbered(receipts) && forall k :: 0 <= k < |ds| ==> ds[k].committedAt >= 0
    ensures ok <==> forall i :: 0 <= i < |receipts| ==> Obeys(ds, receipts[i], i)
  {
    hide CommittedBefore, Obeys;
    var next: nat := 0;
    NoneBefore(ds);
    for i := 0 to |receipts|
      invariant next <= |ds| && next == CommittedBefore(ds, i)
      invariant forall j :: 0 <= j < i ==> Obeys(ds, receipts[j], j)
    {
      var r := receipts[i];
      LatestIsLast(ds, i);
      LatestIsLast(ds, r.sequence);
      ObeysIsOk(ds, r);
      assert next > 0 ==> ds[next - 1].committedAt < i;
      while next < |ds| && ds[next].committedAt < r.sequence
        invariant next <= CommittedBefore(ds, r.sequence) <= |ds|
      {
        next := next + 1;
      }
      assert next == CommittedBefore(ds, r.sequence);
      var used := if next == 0 then 0 else r.sequence - 1 - ds[next - 1].committedAt;
      var active := if next > 0 && (ds[next - 1].mode == STOP || used < ds[next - 1].expires)
        then Some(ds[next - 1]) else None;
      assert active == ActiveAt(ds, r.sequence);
      if r.directive != (match active case None => None case Some(d) => Some(d.id)) { return false; }
      if active.Some? {
        var d := active.value;
        if d.mode == STOP || used >= d.budget { return false; }
        if r.edge in d.prohibited { return false; }
        if d.mode == RESET && !r.resets { return false; }
      }
    }
    ok := true;
  }

  lemma NoneBefore(ds: seq<Directive>)
    ensures (forall k :: 0 <= k < |ds| ==> ds[k].committedAt >= 0) ==> CommittedBefore(ds, 0) == 0
  {
    if ds != [] {
      NoneBefore(ds[..|ds| - 1]);
    }
  }

  // ---------------------------------------------------------------- the window of a directive

  ghost predicate SweepOk(ds: seq<Directive>, receipts: seq<Receipt>) {
    forall i :: 0 <= i < |receipts| ==> ReceiptOk(ds, receipts[i])
  }

  /** The receipt count at which the next directive is committed, or the end of the log. */
  function NextCommit(ds: seq<Directive>, k: int, n: int): int
    requires 0 <= k < |ds|
  {
    if k + 1 < |ds| then ds[k + 1].committedAt else n
  }

  function WindowEnd(ds: seq<Directive>, k: int, n: int): int
    requires 0 <= k < |ds|
  {
    var expiry := ds[k].committedAt + ds[k].expires;
    if expiry < NextCommit(ds, k, n) then expiry else NextCommit(ds, k, n)
  }

  ghost predicate WellOrdered(ds: seq<Directive>, n: int) {
    && InCommitOrder(ds)
    && (forall k :: 0 <= k < |ds| ==> 0 <= ds[k].committedAt <= n && 0 <= ds[k].expires <= ds[k].budget)
    && (forall i, j :: 0 <= i < j < |ds| ==> ds[i].id != ds[j].id)
  }

  /** Directive `k` is the latest one for receipt `i` exactly between its commit and the next. */
  lemma LatestInWindow(ds: seq<Directive>, k: nat, i: nat, n: nat)
    requires InCommitOrder(ds) && k < |ds| && i < n
    ensures CommittedBefore(ds, i + 1) == k + 1 <==> ds[k].committedAt <= i < NextCommit(ds, k, n)
  {
    LatestIsLast(ds, i + 1);
    if k + 1 < |ds| {
      assert ds[k].committedAt <= ds[k + 1].committedAt;
    }
  }

  /** The receipts naming a directive are one block right after its commit, cut by its expiry and by the next commit. */
  lemma WindowIsBlock(ds: seq<Directive>, receipts: seq<Receipt>, k: nat, i: nat)
    requires WellOrdered(ds, |receipts|) && Numbered(receipts) && SweepOk(ds, receipts) && k < |ds| && i < |receipts|
    ensures ds[k].mode != STOP ==>
            (receipts[i].directive == Some(ds[k].id) <==> ds[k].committedAt <= i < WindowEnd(ds, k, |receipts|))
    ensures ds[k].mode == STOP ==> receipts[i].directive != Some(ds[k].id)
    ensures WindowEnd(ds, k, |receipts|) - ds[k].committedAt <= ds[k].expires <= ds[k].budget
  {
    hide CommittedBefore;
    assert ReceiptOk(ds, receipts[i]);
    LatestInWindow(ds, k, i, |receipts|);
    var n := CommittedBefore(ds, i + 1);
    if n > 0 && n - 1 != k {
      assert ds[n - 1].id != ds[k].id;
    }
  }

  lemma StopHasNoWindow(ds: seq<Directive>, receipts: seq<Receipt>, k: nat, i: nat)
    requires WellOrdered(ds, |receipts|) && Numbered(receipts) && SweepOk(ds, receipts) && k < |ds| && i < |receipts|
    requires ds[k].mode == STOP
    ensures !(ds[k].committedAt <= i < NextCommit(ds, k, |receipts|))
  {
    hide CommittedBefore;
    assert ReceiptOk(ds, receipts[i]);
    LatestInWindow(ds, k, i, |receipts|);
  }

  /** A STOP admits no receipt until it is superseded. */
  lemma StopAdmitsNothing(ds: seq<Directive>, receipts: seq<Receipt>, k: nat)
    requires WellOrdered(ds, |receipts|) && Numbered(receipts) && SweepOk(ds, receipts) && k < |ds|
    requires ds[k].mode == STOP
    ensures NextCommit(ds, k, |receipts|) == ds[k].committedAt
  {
    hide SweepOk;
    if k + 1 < |ds| {
      assert ds[k].committedAt <= ds[k + 1].committedAt;
    }
    if ds[k].committedAt < |receipts| {
      StopHasNoWindow(ds, receipts, k, ds[k].committedAt);
    }
  }

  // ---------------------------------------------------------------- cases and directives

  ghost predicate CasesOk(cases: seq<Case>, n: int) {
    && (forall i, j :: 0 <= i < j < |cases| ==> cases[i].id != cases[j].id && !(cases[i].open && cases[j].open))
    && (forall i :: 0 <= i < |cases| ==> 0 <= cases[i].openedAt <= n)
  }

  ghost predicate DirectiveOk(d: Directive, log: Log) {
    && d.id == DirectiveId(d.caseId, d.commit)
    && 0 <= d.expires <= d.budget <= MAX_BUDGET
    && (d.mode != STOP ==> d.budget > 0 && d.expires > 0)
    && 0 <= d.committedAt < |log.sights|
    && Backed(d, log.cases)
    && d.seen == log.sights[d.committedAt].hash
    && (d.mode == RESET ==> log.sights[d.committedAt].state in {NOT_PLAYED, GAME_OVER})
  }

  ghost predicate Backed(d: Directive, cases: seq<Case>) {
    exists i :: 0 <= i < |cases| && cases[i].id == d.caseId && !cases[i].open && cases[i].openedAt <= d.committedAt
  }

  ghost predicate DirectivesOk(log: Log) {
    var ds := log.directives;
    && InCommitOrder(ds)
    && (forall i :: 0 <= i < |ds| ==> DirectiveOk(ds[i], log))
    && (forall i, j :: 0 <= i < j < |ds| ==> ds[i].caseId != ds[j].caseId && ds[i].commit != ds[j].commit)
  }

  ghost predicate HasDirective(c: Case, ds: seq<Directive>) {
    exists k :: 0 <= k < |ds| && ds[k].caseId == c.id
  }

  ghost predicate CasesDecided(cases: seq<Case>, ds: seq<Directive>) {
    forall i :: 0 <= i < |cases| ==> (HasDirective(cases[i], ds) <==> !cases[i].open)
  }

  /** The directive that would govern the next receipt is the active one. */
  ghost predicate ActiveOk(log: Log) {
    log.active == match ActiveAt(log.directives, |log.receipts| + 1) case None => None case Some(d) => Some(d.id)
  }

  ghost predicate Consistent(log: Log) {
    && Numbered(log.receipts) && |log.sights| == |log.receipts| + 1
    && CasesOk(log.cases, |log.receipts|)
    && DirectivesOk(log)
    && CasesDecided(log.cases, log.directives)
    && SweepOk(log.directives, log.receipts)
    && ActiveOk(log)
  }

  /** What the validator accepts: in particular, every receipt obeys the directive in force before it. */
  ghost predicate Accepted(log: Log) {
    var ds, n := log.directives, |log.receipts|;
    && |log.cases| <= MAX_RECORDS && |ds| <= MAX_RECORDS
    && Numbered(log.receipts) && |log.sights| == n + 1
    && CasesOk(log.cases, n) && DirectivesOk(log) && CasesDecided(log.cases, ds)
    && (forall i :: 0 <= i < n ==> Obeys(ds, log.receipts[i], i))
    && (forall k :: Governs(ds, k, n) ==> log.active == Some(ds[k].id))
    && ((forall k :: !Governs(ds, k, n)) ==> log.active == None)
  }

  lemma SweepIsObedience(ds: seq<Directive>, receipts: seq<Receipt>)
    requires InCommitOrder(ds) && Numbered(receipts)
    ensures SweepOk(ds, receipts) <==> forall i :: 0 <= i < |receipts| ==> Obeys(ds, receipts[i], i)
  {
    hide CommittedBefore, Obeys, ReceiptOk;
    forall i | 0 <= i < |receipts| ensures Obeys(ds, receipts[i], i) <==> ReceiptOk(ds, receipts[i]) {
      LatestIsLast(ds, receipts[i].sequence);
      ObeysIsOk(ds, receipts[i]);
    }
  }

  lemma ActiveIsGoverning(log: Log)
    requires InCommitOrder(log.directives)
    ensures var ds, n := log.directives, |log.receipts|;
            ActiveOk(log) <==>
            && (forall k :: Governs(ds, k, n) ==> log.active == Some(ds[k].id))
            && ((forall k :: !Governs(ds, k, n)) ==> log.active == None)
  {
    hide CommittedBefore, Governs;
    var ds, n := log.directives, |log.receipts|;
    LatestIsLast(ds, n + 1);
    GovernsIsActive(ds, n);
    assert ActiveAt(ds, n + 1).Some? ==> Governs(ds, CommittedBefore(ds, n + 1) - 1, n);
  }

  /** The conditions the validator tests are those the steps of a run keep, within the limits on records. */
  lemma AcceptedIsConsistent(log: Log)
    ensures Accepted(log) <==> |log.cases| <= MAX_RECORDS && |log.directives| <= MAX_RECORDS && Consistent(log)
  {
    hide CasesOk, DirectiveOk, CasesDecided, SweepOk, ActiveOk, Governs, Obeys;
    if DirectivesOk(log) && Numbered(log.receipts) {
      SweepIsObedience(log.directives, log.receipts);
      ActiveIsGoverning(log);
    }
  }

  lemma ConsistentIsWellOrdered(log: Log)
    requires Consistent(log)
    ensures WellOrdered(log.directives, |log.receipts|)
  {
    hide SweepOk, CasesDecided, CasesOk, Backed;
    var ds := log.directives;
    forall k | 0 <= k < |ds| ensures 0 <= ds[k].committedAt <= |log.receipts| && 0 <= ds[k].expires <= ds[k].budget {
      assert DirectiveOk(ds[k], log);
    }
    forall i, j | 0 <= i < j < |ds| ensures ds[i].id != ds[j].id {
      assert DirectiveOk(ds[i], log) && DirectiveOk(ds[j], log);
    }
  }

  function ResolvedIds(cases: seq<Case>): set<string> {
    set i | 0 <= i < |cases| && !cases[i].open :: cases[i].id
  }

  function DecidedIds(ds: seq<Directive>): (ids: seq<string>)
    ensures |ids| == |ds|
  {
    seq(|ds|, k requires 0 <= k < |ds| => ds[k].caseId)
  }

  lemma DecidedIsResolved(log: Log, k: nat)
    requires DirectivesOk(log) && k < |log.directives|
    ensures log.directives[k].caseId in ResolvedIds(log.cases)
  {
    hide InCommitOrder;
    var d := log.directives[k];
    assert DirectiveOk(d, log);
    var i :| 0 <= i < |log.cases| && log.cases[i].id == d.caseId && !log.cases[i].open;
  }

  lemma ResolvedIsDecided(log: Log, id: string)
    requires CasesDecided(log.cases, log.directives) && id in ResolvedIds(log.cases)
    ensures id in DecidedIds(log.directives)
  {
    var i :| 0 <= i < |log.cases| && !log.cases[i].open && log.cases[i].id == id;
    assert HasDirective(log.cases[i], log.directives);
    var k :| 0 <= k < |log.directives| && log.directives[k].caseId == id;
    assert DecidedIds(log.directives)[k] == id;
  }

  /** Directives and resolved cases correspond one to one, and at most one case is open. */
  lemma CasesAndDirectivesMatch(log: Log)
    requires Consistent(log)
    ensures Distinct(DecidedIds(log.directives)) && Elements(DecidedIds(log.directives)) == ResolvedIds(log.cases)
    ensures |log.directives| == |ResolvedIds(log.cases)|
    ensures forall i, j :: 0 <= i < |log.cases| && 0 <= j < |log.cases| && log.cases[i].open && log.cases[j].open ==>
            i == j
  {
    hide SweepOk, ActiveOk, InCommitOrder, ResolvedIds, CasesDecided, DirectiveOk;
    var ids := DecidedIds(log.directives);
    forall k | 0 <= k < |ids| ensures ids[k] in ResolvedIds(log.cases) {
      DecidedIsResolved(log, k);
    }
    forall x | x in ResolvedIds(log.cases) ensures x in ids {
      ResolvedIsDecided(log, x);
    }
    DistinctCount(ids);
  }

  /** The validator's closing test on a STOP can never fail: the sweep has already ruled it out. */
  lemma StopTestIsRedundant(log: Log)
    requires Consistent(log) && log.directives != []
    ensures var last := log.directives[|log.directives| - 1]; last.mode == STOP ==> |log.receipts| == last.committedAt
  {
    hide SweepOk, CasesDecided, CasesOk, DirectivesOk, ActiveOk;
    ConsistentIsWellOrdered(log);
    var k := |log.directives| - 1;
    if log.directives[k].mode == STOP {
      StopAdmitsNothing(log.directives, log.receipts, k);
    }
  }

  // ---------------------------------------------------------------- the validator

  /** The cases met so far, by id. */
  ghost predicate Filed(byId: map<string, Case>, cases: seq<Case>) {
    && (forall j :: 0 <= j < |cases| ==> cases[j].id in byId && byId[cases[j].id] == cases[j])
    && (forall id :: id in byId ==> exists j :: 0 <= j < |cases| && cases[j] == byId[id] && cases[j].id == id)
  }

  ghost predicate SomeOpen(cases: seq<Case>) {
    exists j :: 0 <= j < |cases| && cases[j].open
  }

  ghost predicate Unlike(cases: seq<Case>, c: Case) {
    forall j :: 0 <= j < |cases| ==> cases[j].id != c.id
  }

  lemma OneMoreCase(cases: seq<Case>, c: Case, n: int)
    requires CasesOk(cases, n)
    ensures CasesOk(cases + [c], n) <==> Unlike(cases, c) && 0 <= c.openedAt <= n && !(c.open && SomeOpen(cases))
    ensures SomeOpen(cases + [c]) <==> SomeOpen(cases) || c.open
  {
    var all := cases + [c];
    assert all[|cases|] == c && forall j :: 0 <= j < |cases| ==> all[j] == cases[j];
    if SomeOpen(cases) {
      var j :| 0 <= j < |cases| && cases[j].open;
      assert all[j].open;
    }
    if j :| 0 <= j < |cases| && cases[j].id == c.id {
      assert all[j].id == all[|cases|].id;
    }
  }

  lemma FiledMore(byId: map<string, Case>, cases: seq<Case>, c: Case)
    requires Filed(byId, cases) && c.id !in byId
    ensures Filed(byId[c.id := c], cases + [c])
  {
    var all := cases + [c];
    assert all[|cases|] == c && forall j :: 0 <= j < |cases| ==> all[j] == cases[j];
  }

  lemma CasesStep(cases: seq<Case>, c: Case, n: int, byId: map<string, Case>)
    requires CasesOk(cases, n) && Filed(byId, cases)
    ensures CasesOk(cases + [c], n) <==> c.id !in byId && 0 <= c.openedAt <= n && !(c.open && SomeOpen(cases))
    ensures SomeOpen(cases + [c]) <==> SomeOpen(cases) || c.open
    ensures c.id !in byId ==> Filed(byId[c.id := c], cases + [c])
  {
    OneMoreCase(cases, c, n);
    if c.id in byId {
      var j :| 0 <= j < |cases| && cases[j].id == c.id;
      assert !Unlike(cases, c);
    } else {
      assert Unlike(cases, c);
      FiledMore(byId, cases, c);
    }
  }

  lemma CasesPrefix(cases: seq<Case>, k: nat, n: int)
    requires k <= |cases|
    ensures CasesOk(cases, n) ==> CasesOk(cases[..k], n)
  {
  }

  lemma NoCases(n: int)
    ensures CasesOk([], n) && Filed(map[], []) && !SomeOpen([])
  {
  }

  lemma FiledFinds(byId: map<string, Case>, cases: seq<Case>)
    requires Filed(byId, cases)
    ensures forall id, c :: id in byId && byId[id] == c <==> c in cases && c.id == id
  {
  }

  method ValidateCases(cases: seq<Case>, n: int) returns (ok: bool, byId: map<string, Case>)
    ensures ok <==> CasesOk(cases, n)
    ensures ok ==> forall id, c :: id in byId && byId[id] == c <==> c in cases && c.id == id
  {
    hide *;
    byId := map[];
    var open: nat := 0;
    NoCases(n);
    assert cases[..0] == [];
    for i := 0 to |cases|
      invariant CasesOk(cases[..i], n) && Filed(byId, cases[..i])
      invariant open > 0 <==> SomeOpen(cases[..i])
    {
      var c := cases[i];
      assert cases[..i + 1] == cases[..i] + [c];
      CasesStep(cases[..i], c, n, byId);
      CasesPrefix(cases, i + 1, n);
      if c.id in byId || c.openedAt < 0 || c.openedAt > n || (c.open && open > 0) {
        return false, byId;
      }
      byId := byId[c.id := c];
      if c.open { open := open + 1; }
    }
    assert cases[..|cases|] == cases;
    FiledFinds(byId, cases);
    ok := true;
  }

  method ValidateDirective(d: Directive, log: Log, byId: map<string, Case>) returns (ok: bool)
    requires forall id, c :: id in byId && byId[id] == c <==> c in log.cases && c.id == id
    ensures ok <==> DirectiveOk(d, log)
  {
    if d.id != DirectiveId(d.caseId, d.commit) || d.expires < 0 || d.expires > d.budget || d.budget > MAX_BUDGET
        || d.committedAt < 0
       || d.committedAt >= |log.sights| || (d.mode != STOP && (d.budget == 0 || d.expires == 0)) {
      return false;
    }
    if d.caseId !in byId || byId[d.caseId].open || d.committedAt < byId[d.caseId].openedAt {
      NotBacked(d, log.cases, byId);
      return false;
    }
    assert byId[d.caseId] in log.cases;
    var sight := log.sights[d.committedAt];
    ok := d.seen == sight.hash && (d.mode == RESET ==> sight.state == NOT_PLAYED || sight.state == GAME_OVER);
  }

  lemma NotBacked(d: Directive, cases: seq<Case>, byId: map<string, Case>)
    requires forall id, c :: id in byId && byId[id] == c <==> c in cases && c.id == id
    requires d.caseId !in byId || byId[d.caseId].open || d.committedAt < byId[d.caseId].openedAt
    ensures !Backed(d, cases)
  {
    forall i | 0 <= i < |cases| && cases[i].id == d.caseId
      ensures d.caseId in byId && byId[d.caseId] == cases[i] {}
  }

  ghost predicate DirectivesPass(log: Log, k: int)
    requires 0 <= k <= |log.directives|
  {
    var ds := log.directives[..k];
    && InCommitOrder(ds)
    && (forall i :: 0 <= i < k ==> DirectiveOk(ds[i], log))
    && (forall i, j :: 0 <= i < j < k ==> ds[i].caseId != ds[j].caseId && ds[i].commit != ds[j].commit)
  }

  lemma DirectivesStep(log: Log, k: nat)
    requires k < |log.directives| && DirectivesPass(log, k)
    ensures var d, ds := log.directives[k], log.directives;
            DirectivesPass(log, k + 1) <==>
            && DirectiveOk(d, log) && (k > 0 ==> ds[k - 1].committedAt <= d.committedAt)
            && (forall i :: 0 <= i < k ==> ds[i].caseId != d.caseId && ds[i].commit != d.commit)
  {
    hide DirectiveOk;
    var all := log.directives[..k + 1];
    assert all[..k] == log.directives[..k];
    assert forall i :: 0 <= i < k ==> all[i] == log.directives[..k][i];
    if k > 0 && log.directives[k - 1].committedAt <= log.directives[k].committedAt {
      assert log.directives[..k][k - 1] == log.directives[k - 1];
    }
  }

  lemma DirectivesPassPrefix(log: Log, k: nat)
    requires k <= |log.directives|
    ensures DirectivesOk(log) ==> DirectivesPass(log, k)
  {
    hide DirectiveOk;
  }

  method ValidateDirectives(log: Log, byId: map<string, Case>) returns (ok: bool, decided: set<string>)
    requires forall id, c :: id in byId && byId[id] == c <==> c in log.cases && c.id == id
    ensures ok <==> DirectivesOk(log)
    ensures ok ==> decided == set k | 0 <= k < |log.directives| :: log.directives[k].caseId
  {
    hide DirectivesOk, DirectivesPass, DirectiveOk;
    var ds := log.directives;
    decided := {};
    var commits: set<string> := {};
    NoDirectives(log);
    for k := 0 to |ds|
      invariant DirectivesPass(log, k)
      invariant decided == set i | 0 <= i < k :: ds[i].caseId
      invariant commits == set i | 0 <= i < k :: ds[i].commit
    {
      DirectivesStep(log, k);
      DirectivesPassPrefix(log, k + 1);
      var pass := ValidateDirective(ds[k], log, byId);
      if !pass || (k > 0 && ds[k].committedAt < ds[k - 1].committedAt) || ds[k].caseId in decided
          || ds[k].commit in commits {
        return false, decided;
      }
      decided, commits := decided + {ds[k].caseId}, commits + {ds[k].commit};
    }
    AllDirectives(log);
    ok := true;
  }

  lemma NoDirectives(log: Log)
    ensures DirectivesPass(log, 0)
  {
  }

  lemma AllDirectives(log: Log)
    requires DirectivesPass(log, |log.directives|)
    ensures DirectivesOk(log)
  {
    hide DirectiveOk;
    assert log.directives[..|log.directives|] == log.directives;
  }

  lemma LastGovernsNext(log: Log)
    requires DirectivesOk(log) && |log.sights| == |log.receipts| + 1
    ensures CommittedBefore(log.directives, |log.receipts| + 1) == |log.directives|
    ensures InCommitOrder(log.directives) && forall k :: 0 <= k < |log.directives| ==>
            log.directives[k].committedAt >= 0
  {
    hide Backed;
    forall k | 0 <= k < |log.directives| ensures 0 <= log.directives[k].committedAt < |log.receipts| + 1 {
      assert DirectiveOk(log.directives[k], log);
    }
    AllBefore(log.directives, |log.receipts| + 1);
  }

  /** The validator accepts exactly the histories in which every receipt obeys the directive in force. */
  method Validate(log: Log) returns (ok: bool)
    requires Numbered(log.receipts) && |log.sights| == |log.receipts| + 1
    ensures ok <==> Accepted(log)
  {
    hide CasesOk, DirectivesOk, SweepOk, CommittedBefore, InCommitOrder, Obeys, Governs, Accepted;
    AcceptedIsConsistent(log);
    var ds := log.directives;
    if |log.cases| > MAX_RECORDS || |ds| > MAX_RECORDS { return false; }
    var casesPass, byId := ValidateCases(log.cases, |log.receipts|);
    if !casesPass { return false; }
    var directivesPass, decided := ValidateDirectives(log, byId);
    if !directivesPass { return false; }
    for i := 0 to |log.cases|
      invariant forall j :: 0 <= j < i ==> (HasDirective(log.cases[j], ds) <==> !log.cases[j].open)
    {
      if !log.cases[i].open != (log.cases[i].id in decided) { return false; }
    }
    LastGovernsNext(log);
    var swept := Sweep(ds, log.receipts);
    SweepIsObedience(ds, log.receipts);
    if !swept { return false; }
    var used := if ds != [] then |log.receipts| - ds[|ds| - 1].committedAt else 0;
    var current := ds != [] && (ds[|ds| - 1].mode == STOP || used < ds[|ds| - 1].expires);
    if log.active.None? {
      if current { return false; }
    } else if ds == [] || ds[|ds| - 1].id != log.active.value || !current {
      return false;
    }
    ok := !(ds != [] && ds[|ds| - 1].mode == STOP && used != 0);
    assert Accepted(log) || !ok;
    if ds != [] { StopTest(log); }
  }

  lemma StopTest(log: Log)
    requires log.directives != []
    ensures var last := log.directives[|log.directives| - 1]; Accepted(log) && last.mode == STOP ==>
            |log.receipts| == last.committedAt
  {
    hide Consistent, Accepted;
    AcceptedIsConsistent(log);
    if Accepted(log) {
      StopTestIsRedundant(log);
    }
  }

  // ---------------------------------------------------------------- the controller's steps

  lemma {:induction false} CommittedPrefix(ds: seq<Directive>, d: Directive, s: int)
    requires d.committedAt >= s
    ensures CommittedBefore(ds + [d], s) == CommittedBefore(ds, s)
  {
    assert (ds + [d])[..|ds|] == ds;
  }

  /** A commit governs later receipts only. */
  lemma CommitKeepsSweep(ds: seq<Directive>, d: Directive, receipts: seq<Receipt>)
    requires SweepOk(ds, receipts) && Numbered(receipts) && d.committedAt == |receipts|
    ensures SweepOk(ds + [d], receipts)
  {
    hide Permits;
    forall i | 0 <= i < |receipts| ensures ReceiptOk(ds + [d], receipts[i]) {
      assert ReceiptOk(ds, receipts[i]);
      CommittedPrefix(ds, d, receipts[i].sequence);
      BoundedCount(ds, receipts[i].sequence);
    }
  }

  lemma BoundedCount(ds: seq<Directive>, s: int)
    ensures CommittedBefore(ds, s) <= |ds|
  {
  }

  /** More receipts and sights do not change what was true of a directive. */
  lemma DirectivesStay(log: Log, later: Log)
    requires DirectivesOk(log) && later.directives == log.directives && log.sights <= later.sights
    requires forall d: Directive :: Backed(d, log.cases) ==> Backed(d, later.cases)
    ensures DirectivesOk(later)
  {
    hide Backed;
    forall i | 0 <= i < |log.directives| ensures DirectiveOk(log.directives[i], later) {
      assert DirectiveOk(log.directives[i], log);
    }
  }

  lemma CaseAdded(cases: seq<Case>, c: Case, n: int, ds: seq<Directive>)
    requires CasesOk(cases, n) && CasesDecided(cases, ds) && c.openedAt == n >= 0
    requires forall i :: 0 <= i < |cases| ==> cases[i].id != c.id && !(c.open && cases[i].open)
    requires !HasDirective(c, ds) && c.open
    ensures CasesOk(cases + [c], n) && CasesDecided(cases + [c], ds)
    ensures forall d: Directive :: Backed(d, cases) ==> Backed(d, cases + [c])
  {
    hide HasDirective;
    forall d: Directive | Backed(d, cases) ensures Backed(d, cases + [c]) {
      var i :| 0 <= i < |cases| && cases[i].id == d.caseId && !cases[i].open && cases[i].openedAt <= d.committedAt;
      assert (cases + [c])[i] == cases[i];
    }
  }

  lemma NoDirectiveForNewCase(log: Log, id: string)
    requires DirectivesOk(log) && forall i :: 0 <= i < |log.cases| ==> log.cases[i].id != id
    ensures forall k :: 0 <= k < |log.directives| ==> log.directives[k].caseId != id
  {
    hide InCommitOrder;
    forall k | 0 <= k < |log.directives| ensures log.directives[k].caseId != id {
      assert DirectiveOk(log.directives[k], log);
    }
  }

  /** What a commit writes into the directive, and what the controller has checked before writing it. */
  ghost predicate Committable(log: Log, d: Directive) {
    && |log.sights| == |log.receipts| + 1
    && d.committedAt == |log.receipts| && d.id == DirectiveId(d.caseId, d.commit)
        && 0 <= d.expires <= d.budget <= MAX_BUDGET
    && (d.mode != STOP ==> d.budget > 0 && d.expires > 0)
    && d.seen == log.sights[d.committedAt].hash
    && (d.mode == RESET ==> log.sights[d.committedAt].state in {NOT_PLAYED, GAME_OVER})
    && (forall k :: 0 <= k < |log.directives| ==> log.directives[k].commit != d.commit)
  }

  /** The open case at `i` is resolved by the new directive `d`. */
  lemma CaseResolved(log: Log, i: nat, d: Directive)
    requires Committable(log, d) && Consistent(log)
    requires i < |log.cases| && log.cases[i].open && log.cases[i].id == d.caseId
    ensures Consistent(log.(cases := log.cases[i := log.cases[i].(open := false)], directives :=
                log.directives + [d], active := Some(d.id)))
  {
    hide Consistent, CasesOk, DirectivesOk, CasesDecided, SweepOk, ActiveOk;
    var cases := log.cases[i := log.cases[i].(open := false)];
    var later := log.(cases := cases, directives := log.directives + [d], active := Some(d.id));
    ConsistentParts(log);
    ResolvedParts(log, i, d);
    CommitKeepsSweep(log.directives, d, log.receipts);
    NewIsActive(later, d);
    CasesStay(log.cases, i, |log.receipts|);
    ConsistentFrom(later);
  }

  lemma ResolvedParts(log: Log, i: nat, d: Directive)
    requires Committable(log, d) && Consistent(log)
    requires i < |log.cases| && log.cases[i].open && log.cases[i].id == d.caseId
    ensures var cases, ds := log.cases[i := log.cases[i].(open := false)], log.directives + [d];
            DirectivesOk(log.(cases := cases, directives := ds, active := Some(d.id))) && CasesDecided(cases, ds)
    ensures forall k :: 0 <= k < |log.directives| ==> log.directives[k].committedAt <= |log.receipts|
  {
    hide SweepOk, ActiveOk, Numbered;
    var cases := log.cases[i := log.cases[i].(open := false)];
    ResolvingBacks(log.cases, i, cases, d);
    hide Backed;
    assert !HasDirective(log.cases[i], log.directives);
    NewDirectives(log, log.(cases := cases, directives := log.directives + [d], active := Some(d.id)), d);
    ResolvingDecides(log.cases, i, cases, log.directives, d);
  }

  lemma ConsistentParts(log: Log)
    requires Consistent(log)
    ensures Numbered(log.receipts) && |log.sights| == |log.receipts| + 1 && CasesOk(log.cases, |log.receipts|)
    ensures DirectivesOk(log)
    ensures SweepOk(log.directives, log.receipts)
  {
  }

  lemma ConsistentFrom(log: Log)
    requires Numbered(log.receipts) && |log.sights| == |log.receipts| + 1
    requires CasesOk(log.cases, |log.receipts|) && DirectivesOk(log) && CasesDecided(log.cases, log.directives)
    requires SweepOk(log.directives, log.receipts) && ActiveOk(log)
    ensures Consistent(log)
  {
  }

  lemma CasesStay(cases: seq<Case>, i: nat, n: int)
    requires CasesOk(cases, n) && i < |cases|
    ensures CasesOk(cases[i := cases[i].(open := false)], n)
  {
  }

  lemma ResolvingBacks(cases: seq<Case>, i: nat, after: seq<Case>, d: Directive)
    requires i < |cases| && cases[i].open && after == cases[i := cases[i].(open := false)]
    ensures forall x: Directive :: Backed(x, cases) ==> Backed(x, after)
    ensures cases[i].id == d.caseId && cases[i].openedAt <= d.committedAt ==> Backed(d, after)
  {
    forall x: Directive | Backed(x, cases) ensures Backed(x, after) {
      var j :| 0 <= j < |cases| && cases[j].id == x.caseId && !cases[j].open && cases[j].openedAt <= x.committedAt;
      assert after[j] == cases[j];
    }
    assert after[i] == cases[i].(open := false);
  }

  lemma ResolvingDecides(cases: seq<Case>, i: nat, after: seq<Case>, ds: seq<Directive>, d: Directive)
    requires i < |cases| && after == cases[i := cases[i].(open := false)] && cases[i].id == d.caseId
    requires CasesDecided(cases, ds) && forall j :: 0 <= j < |cases| && j != i ==> cases[j].id != cases[i].id
    ensures CasesDecided(after, ds + [d])
  {
    forall j | 0 <= j < |after| ensures HasDirective(after[j], ds + [d]) <==> !after[j].open {
      assert (ds + [d])[|ds|] == d;
      if j != i {
        assert HasDirective(cases[j], ds) <==> !cases[j].open;
        if HasDirective(cases[j], ds) {
          var k :| 0 <= k < |ds| && ds[k].caseId == cases[j].id;
          assert (ds + [d])[k] == ds[k];
        }
      }
    }
  }

  lemma NewDirectives(log: Log, later: Log, d: Directive)
    requires DirectivesOk(log) && |log.sights| == |log.receipts| + 1 && later.sights == log.sights
    requires later.directives == log.directives + [d]
    requires d.committedAt == |log.receipts| && DirectiveOk(d, later)
    requires forall x: Directive :: Backed(x, log.cases) ==> Backed(x, later.cases)
    requires forall k :: 0 <= k < |log.directives| ==>
             log.directives[k].commit != d.commit && log.directives[k].caseId != d.caseId
    ensures DirectivesOk(later)
  {
    hide Backed;
    var ds := later.directives;
    forall i | 0 <= i < |ds| ensures DirectiveOk(ds[i], later) {
      if i < |log.directives| {
        assert DirectiveOk(log.directives[i], log);
      }
    }
    forall i, j | 0 <= i <= j < |ds| ensures ds[i].committedAt <= ds[j].committedAt {
      if i < |log.directives| {
        assert DirectiveOk(log.directives[i], log);
      }
    }
  }

  lemma NewIsActive(log: Log, d: Directive)
    requires log.directives != [] && log.directives[|log.directives| - 1] == d && d.committedAt == |log.receipts|
    requires log.active == Some(d.id) && (d.mode != STOP ==> d.expires > 0)
    requires forall k :: 0 <= k < |log.directives| ==> log.directives[k].committedAt < |log.receipts| + 1
    ensures ActiveOk(log)
  {
    AllBefore(log.directives, |log.receipts| + 1);
  }

  /** The directive in force for the next action, by name. */
  ghost function InForce(ds: seq<Directive>, n: int): Option<DirectiveId> {
    match ActiveAt(ds, n + 1) case None => None case Some(d) => Some(d.id)
  }

  lemma LastInForce(ds: seq<Directive>, n: int)
    requires forall k :: 0 <= k < |ds| ==> ds[k].committedAt <= n
    ensures InForce(ds, n) ==
            if ds != [] && (ds[|ds| - 1].mode == STOP || n - ds[|ds| - 1].committedAt < ds[|ds| - 1].expires)
                then Some(ds[|ds| - 1].id) else None
  {
    AllBefore(ds, n + 1);
  }

  /** An action that obeys the directive in force keeps the history consistent. */
  lemma ActKeepsConsistent(log: Log, r: Receipt, sight: Sight)
    requires Consistent(log) && ReceiptOk(log.directives, r) && r.sequence == |log.receipts| + 1
    ensures Consistent(Log(log.receipts + [r], log.sights + [sight], log.cases, log.directives,
                InForce(log.directives, |log.receipts| + 1)))
  {
    hide ReceiptOk, Backed, InCommitOrder, CasesDecided;
    var later := Log(log.receipts + [r], log.sights + [sight], log.cases, log.directives,
          InForce(log.directives, |log.receipts| + 1));
    DirectivesStay(log, later);
    forall i | 0 <= i < |later.receipts| ensures ReceiptOk(later.directives, later.receipts[i]) {
      if i < |log.receipts| {
        assert ReceiptOk(log.directives, log.receipts[i]);
      }
    }
  }

  /** An opened case changes nothing else. */
  lemma OpeningKeepsConsistent(log: Log, c: Case)
    requires Consistent(log) && c.open && c.openedAt == |log.receipts|
    requires forall i :: 0 <= i < |log.cases| ==> log.cases[i].id != c.id && !log.cases[i].open
    ensures Consistent(log.(cases := log.cases + [c]))
  {
    var later := log.(cases := log.cases + [c]);
    NoDirectiveForNewCase(log, c.id);
    CaseAdded(log.cases, c, |log.receipts|, log.directives);
    DirectivesStay(log, later);
  }

  lemma CommitsAreBounded(log: Log)
    requires Consistent(log)
    ensures forall k :: 0 <= k < |log.directives| ==> 0 <= log.directives[k].committedAt <= |log.receipts|
  {
    ConsistentIsWellOrdered(log);
  }

  lemma CommitInForce(log: Log, ds: seq<Directive>, d: Directive)
    requires forall k :: 0 <= k < |log.directives| ==> log.directives[k].committedAt <= |log.receipts|
    requires Committable(log, d) && ds == log.directives + [d]
    ensures InForce(ds, |log.receipts|) == Some(d.id)
  {
    LastInForce(ds, |log.receipts|);
  }

  lemma CommittedNow(log: Log, d: Directive)
    requires Committable(log, d)
    ensures d.committedAt == |log.receipts|
  {
  }

  lemma FinishOpen(log: Log, after: Log, d: Directive, at: nat, index: nat)
    requires Consistent(log) && Committable(log, d) && at < |log.cases| && log.cases[at].id == d.caseId
    requires log.cases[at].open
    requires index < |log.cases| && log.cases[index].id == d.caseId
    requires after == log.(cases := log.cases[index := log.cases[index].(open := false)], directives :=
               log.directives + [d], active := Some(d.id))
    ensures Consistent(after) && forall i :: 0 <= i < |log.cases| && log.cases[i].id == d.caseId ==> log.cases[i].open
  {
    hide Consistent;
    ConsistentParts(log);
    assert index == at;
    CaseResolved(log, at, d);
  }

  lemma FinishDuplicate(log: Log, after: Log, index: nat)
    requires index < |log.cases| && |after.cases| == |log.cases| + 1
    requires after.cases[index].id == log.cases[index].id == after.cases[|log.cases|].id
    ensures !Consistent(after)
  {
    hide DirectivesOk, CasesDecided, SweepOk, ActiveOk;
  }

  lemma FinishDetected(log: Log, after: Log, d: Directive)
    requires Consistent(log) && Committable(log, d) && forall i :: 0 <= i < |log.cases| ==> log.cases[i].id != d.caseId
    requires after == log.(cases := log.cases + [Case(d.caseId, false, |log.receipts|)], directives :=
               log.directives + [d], active := Some(d.id))
    ensures Consistent(after)
  {
    var c := Case(d.caseId, false, |log.receipts|);
    hide Backed, HasDirective, ActiveOk;
    NoDirectiveForNewCase(log, d.caseId);
    DetectedDecides(log.cases, c, log.directives, d);
    CommitKeepsSweep(log.directives, d, log.receipts);
    NewDirectives(log, after, d);
    CommitsAreBounded(log);
    NewIsActive(after, d);
  }

  lemma DetectedDecides(cases: seq<Case>, c: Case, ds: seq<Directive>, d: Directive)
    requires CasesDecided(cases, ds) && !c.open && c.id == d.caseId && c.openedAt <= d.committedAt
    requires forall i :: 0 <= i < |cases| ==> cases[i].id != c.id
    ensures CasesDecided(cases + [c], ds + [d]) && Backed(d, cases + [c])
    ensures forall x: Directive :: Backed(x, cases) ==> Backed(x, cases + [c])
  {
    var all, more := cases + [c], ds + [d];
    assert all[|cases|] == c && more[|ds|] == d;
    forall x: Directive | Backed(x, cases) ensures Backed(x, all) {
      var i :| 0 <= i < |cases| && cases[i].id == x.caseId && !cases[i].open && cases[i].openedAt <= x.committedAt;
      assert all[i] == cases[i];
    }
    forall j | 0 <= j < |all| ensures HasDirective(all[j], more) <==> !all[j].open {
      if j < |cases| {
        assert HasDirective(cases[j], ds) <==> !cases[j].open;
        if HasDirective(cases[j], ds) {
          var k :| 0 <= k < |ds| && ds[k].caseId == cases[j].id;
          assert more[k] == ds[k];
        }
      }
    }
  }

  /** The case is on record as resolved. */
  ghost predicate OnRecord(cases: seq<Case>, id: string) {
    exists i :: 0 <= i < |cases| && cases[i].id == id && !cases[i].open
  }

  /** The case is on record, open or resolved. */
  ghost predicate Listed(cases: seq<Case>, id: string) {
    exists i :: 0 <= i < |cases| && cases[i].id == id
  }

  lemma ListedParts(cases: seq<Case>, id: string)
    ensures Listed(cases, id) <==> HasOpen(cases, id) || OnRecord(cases, id)
  {
    if i :| 0 <= i < |cases| && cases[i].id == id {
      assert cases[i].open || OnRecord(cases, id);
    }
  }

  ghost predicate CommittedBy(ds: seq<Directive>, n: int) {
    forall k :: 0 <= k < |ds| ==> ds[k].committedAt <= n
  }

  lemma CommittedByMore(ds: seq<Directive>, d: Directive, n: int)
    requires CommittedBy(ds, n) && d.committedAt <= n
    ensures CommittedBy(ds + [d], n)
  {
  }

  /** Some case is on record more than once. */
  ghost predicate Twice(cases: seq<Case>) {
    exists i, j :: 0 <= i < j < |cases| && cases[i].id == cases[j].id
  }

  /** Cases are only ever added, and keep their ids. */
  ghost predicate KeepsIds(before: seq<Case>, after: seq<Case>) {
    |before| <= |after| && forall i :: 0 <= i < |before| ==> after[i].id == before[i].id
  }

  /** What holds of every history; unless some case is on record twice, it is consistent. */
  ghost predicate Founded(log: Log) {
    && (!Twice(log.cases) ==> Consistent(log))
    && Numbered(log.receipts) && |log.sights| == |log.receipts| + 1 && CommittedBy(log.directives, |log.receipts|)
  }

  /** Two records of one case are there to stay. */
  lemma TwiceStays(before: seq<Case>, after: seq<Case>)
    requires Twice(before) && KeepsIds(before, after)
    ensures Twice(after)
  {
    var i, j :| 0 <= i < j < |before| && before[i].id == before[j].id;
    assert after[i].id == after[j].id;
  }

  /** The validator refuses every history with two records of one case. */
  lemma TwiceIsRefused(log: Log)
    requires Twice(log.cases)
    ensures !Accepted(log)
  {
    hide DirectivesOk, CasesDecided, Governs, Obeys;
    var i, j :| 0 <= i < j < |log.cases| && log.cases[i].id == log.cases[j].id;
  }

  lemma ConsistentIsOnce(log: Log)
    requires Consistent(log)
    ensures !Twice(log.cases)
  {
    hide DirectivesOk, CasesDecided, SweepOk, ActiveOk;
  }

  lemma OpenedOnce(cases: seq<Case>, c: Case)
    requires forall i :: 0 <= i < |cases| ==> cases[i].id != c.id
    ensures Twice(cases + [c]) <==> Twice(cases)
  {
    if Twice(cases) {
      TwiceStays(cases, cases + [c]);
    }
    if i, j :| 0 <= i < j < |cases + [c]| && (cases + [c])[i].id == (cases + [c])[j].id {
      assert j < |cases| && cases[i].id == cases[j].id;
    }
  }

  /** A commit that adds a record of a case already on record leaves two. */
  lemma CommitDuplicates(log: Log, cases: seq<Case>, d: Directive)
    requires KeepsIds(log.cases, cases) && Listed(log.cases, d.caseId)
    requires |cases| == |log.cases| + 1 && cases[|log.cases|].id == d.caseId
    ensures Twice(cases)
  {
    var i :| 0 <= i < |log.cases| && log.cases[i].id == d.caseId;
    assert cases[i].id == cases[|log.cases|].id;
  }

  /** The history after a commit is consistent unless the commit added a record of a case already on record. */
  lemma CommitOutcome(log: Log, cases: seq<Case>, d: Directive, at: nat, index: nat)
    requires Consistent(log) && Committable(log, d) && index <= at <= |log.cases|
    requires at < |log.cases| ==>
             log.cases[at].id == d.caseId && log.cases[at].open
                 && cases == log.cases[index := log.cases[index].(open := false)]
    requires index < |log.cases| ==> log.cases[index].id == d.caseId
    requires at == |log.cases| ==>
             |cases| == |log.cases| + 1 && cases[|log.cases|].id == d.caseId && cases[index].id == d.caseId
    requires at == |log.cases| == index ==> cases == log.cases + [Case(d.caseId, false, |log.receipts|)]
    requires forall j :: 0 <= j < index ==> log.cases[j].id != d.caseId
    ensures var ds := log.directives + [d];
            && InForce(ds, |log.receipts|) == Some(d.id) && ds[|ds| - 1] == d
            && (Consistent(Log(log.receipts, log.sights, cases, ds, InForce(ds, |log.receipts|))) <==>
                !(at == |log.cases| && Listed(log.cases, d.caseId)))
  {
    var ds := log.directives + [d];
    CommitsAreBounded(log);
    CommitInForce(log, ds, d);
    hide Consistent, Committable;
    var after := Log(log.receipts, log.sights, cases, ds, Some(d.id));
    if at < |log.cases| {
      FinishOpen(log, after, d, at, index);
    } else if index < |log.cases| {
      FinishDuplicate(log, after, index);
    } else {
      FinishDetected(log, after, d);
    }
  }

  /** The open case at `at`, or a new record, led to the first record of the case, at `index`, being resolved. */
  ghost predicate Resolves(before: seq<Case>, after: seq<Case>, id: string, n: int, at: int, index: int) {
    && 0 <= index <= at <= |before| && KeepsIds(before, after)
    && (at < |before| ==>
          && before[at].id == id && before[at].open
          && after == before[index := before[index].(open := false)])
    && (index < |before| ==> before[index].id == id)
    && (at == |before| ==> |after| == |before| + 1 && after[|before|].id == id && after[index].id == id)
    && (at == |before| == index ==> after == before + [Case(id, false, n)])
    && (forall j :: 0 <= j < index ==> before[j].id != id)
  }

  /** After a commit some case is on record twice if one was before, or if the one added was on record already. */
  lemma CommitRecords(log: Log, cases: seq<Case>, d: Directive, at: nat, index: nat)
    requires Founded(log) && Committable(log, d)
    requires Resolves(log.cases, cases, d.caseId, |log.receipts|, at, index)
    ensures var ds := log.directives + [d];
            && (Twice(cases) <==> Twice(log.cases) || (at == |log.cases| && Listed(log.cases, d.caseId)))
            && Founded(Log(log.receipts, log.sights, cases, ds, InForce(ds, |log.receipts|)))
            && InForce(ds, |log.receipts|) == Some(d.id)
  {
    CommitInForce(log, log.directives + [d], d);
    CommittedNow(log, d);
    CommittedByMore(log.directives, d, |log.receipts|);
    hide Consistent, Committable, Listed, Twice, InForce, KeepsIds, CommittedBy, Numbered;
    if Twice(log.cases) {
      TwiceStays(log.cases, cases);
    } else if at == |log.cases| && Listed(log.cases, d.caseId) {
      CommitDuplicates(log, cases, d);
    } else {
      CommitOutcome(log, cases, d, at, index);
      var ds := log.directives + [d];
      ConsistentIsOnce(Log(log.receipts, log.sights, cases, ds, InForce(ds, |log.receipts|)));
    }
  }

  /** The cases after `id` has been reported: opened unless some case is open or `id` is on record. */
  ghost function Opened(cases: seq<Case>, id: string, n: int): seq<Case> {
    if exists i :: 0 <= i < |cases| && (cases[i].open || cases[i].id == id) then cases else cases + [Case(id, true, n)]
  }

  ghost predicate HasOpen(cases: seq<Case>, id: string) {
    exists i :: 0 <= i < |cases| && cases[i].id == id && cases[i].open
  }

  /** The first case named `id` is marked resolved, after the case has been put on record if it is to be. */
  ghost predicate ResolvedInto(cases: seq<Case>, after: seq<Case>, id: string, n: int, persists: bool) {
    var all := if persists then cases + [Case(id, true, n)] else cases;
    exists k :: 0 <= k < |all| && all[k].id == id && (forall j :: 0 <= j < k ==> all[j].id != id)
        && after == all[k := all[k].(open := false)]
  }

  /** The last directive has run out and was no STOP. */
  ghost predicate Lapsed(ds: seq<Directive>, n: int) {
    ds != [] && ds[|ds| - 1].mode != STOP && n - ds[|ds| - 1].committedAt >= ds[|ds| - 1].expires
  }

  /** A directive in force has not lapsed. */
  lemma ActiveIsNotLapsed(ds: seq<Directive>, n: int)
    requires forall k :: 0 <= k < |ds| ==> ds[k].committedAt <= n
    ensures ActiveAt(ds, n + 1).Some? ==> !Lapsed(ds, n)
  {
    AllBefore(ds, n + 1);
  }

  /** A commit may be written: current, legal, within budget, and for a case that is open or just detected. */
  ghost predicate MayCommit(d: Directive, now: Sight, cases: seq<Case>, detected: Option<string>) {
    && d.seen == now.hash
    && (d.mode == RESET ==> now.state in {NOT_PLAYED, GAME_OVER})
    && 0 <= d.expires <= d.budget <= MAX_BUDGET && (d.mode != STOP ==> d.budget > 0 && d.expires > 0)
    && (HasOpen(cases, d.caseId) || detected == Some(d.caseId))
  }

  /**
   * What holds the mutation lock across an `await`: an action whose intent is being logged, that the environment is
   * at work on, or whose receipt is being logged; or a directive whose intent is being logged. A faulted run is at
   * rest, but takes no more actions and no more directives.
   */
  datatype Waiting =
    | Idle
    | Faulted
    | Intended(intent: Receipt)
    | InFlight(receipt: Receipt)
    | Landed
    | Deciding(directive: Directive, persists: bool)

  class Run {
    const blocking: bool
    var receipts: seq<Receipt>
    var sights: seq<Sight>
    var cases: seq<Case>
    var directives: seq<Directive>
    // May still name an expired directive; it is cleared when next looked at.
    var active: Option<DirectiveId>
    var waiting: Waiting
    // How many of the receipts have their result on the idempotency ledger.
    var recorded: nat

    ghost function History(): Log
      reads this
    {
      Log(receipts, sights, cases, directives, InForce(directives, |receipts|))
    }

    ghost predicate Inv()
      reads this
    {
      && Founded(History())
      && recorded <= |receipts| <= recorded + 1
      && (waiting.Landed? ==> |receipts| == recorded + 1)
      && (recorded < |receipts| ==> waiting.Landed? || waiting.Faulted?)
      && (match waiting
          case Intended(r) => r.sequence == |receipts| + 1
          case InFlight(r) => r.sequence == |receipts| + 1 && Obeys(directives, r, |receipts|)
          case Deciding(d, persists) => Committable(History(), d) && (persists || HasOpen(cases, d.caseId))
          case _ => true)
      && (active.Some? ==> directives != [] && active.value == directives[|directives| - 1].id)
      && (active.None? ==> InForce(directives, |receipts|) == None)
    }

    constructor (first: Sight, blocking: bool)
      ensures Inv() && receipts == [] && sights == [first] && cases == [] && directives == []
      ensures this.blocking == blocking
      ensures waiting == Idle && recorded == 0
    {
      this.blocking := blocking;
      waiting, recorded := Idle, 0;
      receipts, sights, cases, directives, active := [], [first], [], [], None;
    }

    /** A run that has faulted or won takes no more actions, directives or cases. */
    predicate Stopped()
      reads this`waiting, this`sights
    {
      waiting.Faulted? || (sights != [] && sights[|sights| - 1].state == WIN)
    }

    lemma HasSight()
      requires Inv()
      ensures |sights| == |receipts| + 1
    {
    }

    /** The active directive, if it has not run out; an expired one is forgotten and may ask for renewal. */
    method ActiveDirective(renewal: string) returns (d: Option<Directive>)
      requires Inv()
      modifies this`active, this`cases
      ensures Inv() && active == InForce(directives, |receipts|) && (Twice(cases) <==> Twice(old(cases)))
      ensures d == ActiveAt(directives, |receipts| + 1)
      ensures cases == if blocking && Lapsed(directives, |receipts|) then Opened(old(cases), renewal, |receipts|)
              else old(cases)
    {
      hide Consistent;
      LastInForce(directives, |receipts|);
      AllBefore(directives, |receipts| + 1);
      if active.Some? {
        var named := directives[|directives| - 1];
        if named.mode == STOP || |receipts| - named.committedAt < named.expires { return Some(named); }
      }
      active := None;
      if blocking && directives != [] {
        var latest := directives[|directives| - 1];
        if latest.mode != STOP && |receipts| - latest.committedAt >= latest.expires { OpenCase(renewal); }
      }
      d := None;
    }

    /** Opens a case unless one is open already or the case is on record. */
    method OpenCase(id: string)
      requires Inv()
      modifies this`cases
      ensures Inv() && (Twice(cases) <==> Twice(old(cases)))
      ensures cases == Opened(old(cases), id, |receipts|)
    {
      hide Consistent;
      for i := 0 to |cases|
        invariant forall j :: 0 <= j < i ==> !cases[j].open && cases[j].id != id
      {
        if cases[i].open || cases[i].id == id { return; }
      }
      var c := Case(id, true, |receipts|);
      OpenedOnce(cases, c);
      if !Twice(cases) {
        OpeningKeepsConsistent(History(), c);
      }
      cases := cases + [c];
    }

    /**
     * The boss, who needs no lock, asks for a case: the open one, or the one detected now unless it is on record. A
     * stopped run refuses.
     */
    method OpenSupervisorCase(detected: Option<string>, renewal: string) returns (ok: bool)
      requires Inv()
      modifies this`active, this`cases
      ensures Inv() && (Twice(cases) <==> Twice(old(cases))) && ok == !Stopped()
      ensures !ok ==> cases == old(cases) && active == old(active)
      ensures ok ==>
                var renewed := if blocking && Lapsed(directives, |receipts|)
                    then Opened(old(cases), renewal, |receipts|) else old(cases);
                cases == if detected.Some? then Opened(renewed, detected.value, |receipts|) else renewed
    {
      hide Inv, Twice, Opened, Lapsed, InForce, ActiveAt, History;
      HasSight();
      if waiting == Faulted || sights[|sights| - 1].state == WIN { return false; }
      var d := ActiveDirective(renewal);
      if detected.Some? { OpenCase(detected.value); }
      ok := true;
    }

    /**
     * A directive takes the mutation lock: on an open case, or on one that is only now detected and has yet to be put
     * on record. Its intent is logged before anything is written; a known commit is answered with its directive.
     */
    method Decide(caseId: string, commit: string, mode: Mode, budget: int, expires: int, seen: string,
        prohibited: set<string>, detected: Option<string>)
      returns (r: Result<Directive, string>)
      requires Inv() && waiting in {Idle, Faulted}
      modifies this`waiting
      ensures Inv()
      ensures var d := Directive(DirectiveId(caseId, commit), caseId, commit, mode, budget, expires, |receipts|, seen,
                prohibited);
              var replay := exists x :: x in directives && x.commit == commit;
              && |sights| > |receipts|
              && (r.Ok? <==> replay || (!old(Stopped()) && MayCommit(d, sights[|receipts|], cases, detected)))
              && (replay ==> r.value in directives && r.value.commit == commit)
              && (r.Ok? && !replay ==> r.value == d)
              && waiting == if r.Ok? && !replay then Deciding(d, !HasOpen(cases, caseId)) else old(waiting)
    {
      hide Consistent, Twice, CommittedBefore;
      for k := 0 to |directives|
        invariant forall j :: 0 <= j < k ==> directives[j].commit != commit
      {
        if directives[k].commit == commit {
          assert directives[k] in directives;
          return Ok(directives[k]);
        }
      }
      if waiting == Faulted { return Err("FAULTED"); }
      if sights[|sights| - 1].state == WIN { return Err("RUN_WON"); }
      var now := sights[|receipts|];
      if seen != now.hash { return Err("STALE_SUPERVISOR_OBSERVATION"); }
      if mode == RESET && now.state != NOT_PLAYED && now.state != GAME_OVER { return Err("RESET_DIRECTIVE_ILLEGAL"); }
      if expires < 0 || expires > budget || budget > MAX_BUDGET
          || (mode != STOP && (budget == 0 || expires == 0)) { return Err("invalid budgets"); }
      var at := FindOpen(caseId);
      if at == |cases| && detected != Some(caseId) { return Err("STALE_SUPERVISOR_CASE"); }
      var d := Directive(DirectiveId(caseId, commit), caseId, commit, mode, budget, expires, |receipts|, seen,
            prohibited);
      waiting := Deciding(d, at == |cases|);
      r := Ok(d);
    }

    method FindOpen(caseId: string) returns (at: nat)
      ensures at <= |cases| && (at < |cases| ==> cases[at].id == caseId && cases[at].open)
      ensures at < |cases| <==> HasOpen(cases, caseId)
    {
      at := 0;
      while at < |cases| && !(cases[at].id == caseId && cases[at].open)
        invariant at <= |cases| && forall j :: 0 <= j < at ==> !(cases[j].id == caseId && cases[j].open)
      {
        at := at + 1;
      }
    }

    /**
     * The intent of the directive is logged, or not. The case it was detected on is put on record now, whatever has
     * been opened meanwhile, which needs no lock: that leaves two records if the case is on record already.
     */
    method WriteDirective(logged: bool)
      requires Inv() && waiting.Deciding?
      modifies this`cases, this`directives, this`active, this`waiting
      ensures Inv() && waiting == Idle
      ensures !logged ==> cases == old(cases) && directives == old(directives) && active == old(active)
      ensures logged ==>
                var d, persists := old(waiting).directive, old(waiting).persists;
                && directives == old(directives) + [d] && active == Some(d.id)
                && ResolvedInto(old(cases), cases, d.caseId, |receipts|, persists)
                && (Twice(cases) <==> Twice(old(cases)) || (persists && Listed(old(cases), d.caseId)))
    {
      hide Inv, Founded, Committable, HasOpen, Listed, Twice, InForce, ResolvedInto, Resolves;
      DecidingFits();
      var d, persists := waiting.directive, waiting.persists;
      if !logged {
        Rest();
        return;
      }
      waiting := Idle;
      ghost var was := cases;
      assert Before(was) == old(Before(cases));
      ghost var at, index := ResolveCase(d.caseId, persists);
      PutInForce(d, was, at, index);
    }

    lemma DecidingFits()
      requires Inv() && waiting.Deciding?
      ensures Founded(Before(cases)) && Committable(Before(cases), waiting.directive)
      ensures waiting.persists || HasOpen(cases, waiting.directive.caseId)
      ensures recorded == |receipts|
    {
    }

    method Rest()
      requires Inv() && waiting.Deciding?
      modifies this`waiting
      ensures Inv() && waiting == Idle
    {
      hide Founded, Committable, HasOpen, InForce, Obeys;
      waiting := Idle;
    }

    /** The history with other cases. */
    ghost function Before(was: seq<Case>): Log
      reads this
    {
      Log(receipts, sights, was, directives, InForce(directives, |receipts|))
    }

    /** The last step of a commit; `was` are the cases it started from. */
    method PutInForce(d: Directive, ghost was: seq<Case>, ghost at: nat, ghost index: nat)
      requires Founded(Before(was)) && Committable(Before(was), d) && waiting == Idle && recorded == |receipts|
      requires Resolves(was, cases, d.caseId, |receipts|, at, index)
      modifies this`directives, this`active
      ensures directives == old(directives) + [d] && active == Some(d.id)
      ensures Inv() && (Twice(cases) <==> Twice(was) || (at == |was| && Listed(was, d.caseId)))
    {
      hide Founded, Committable, Listed, Twice, InForce, Resolves, ReceiptOk;
      CommitRecords(Before(was), cases, d, at, index);
      directives := directives + [d];
      active := Some(d.id);
    }

    /** The first case of that id is resolved; `at` is the open one, or the one put on record for it. */
    method ResolveCase(caseId: string, persists: bool) returns (ghost at: nat, ghost first: nat)
      requires persists || HasOpen(cases, caseId)
      modifies this`cases
      ensures ResolvedInto(old(cases), cases, caseId, |receipts|, persists)
      ensures Resolves(old(cases), cases, caseId, |receipts|, at, first) && (at == |old(cases)| <==> persists)
    {
      at := |cases|;
      if persists {
        cases := cases + [Case(caseId, true, |receipts|)];
      } else {
        ghost var k :| 0 <= k < |cases| && cases[k].id == caseId && cases[k].open;
        at := k;
      }
      ghost var all := cases;
      var index := 0;
      while cases[index].id != caseId
        invariant index <= at && forall j :: 0 <= j < index ==> cases[j].id != caseId
        decreases |cases| - index
      {
        index := index + 1;
      }
      cases := cases[index := cases[index].(open := false)];
      first := index;
      assert all[index].id == caseId && cases == all[index := all[index].(open := false)];
    }

    /** The gate of an action, passed exactly when supervision allows one and it obeys the directive in force. */
    ghost predicate Passes(r: Receipt, legal: bool)
      reads this
    {
      && (blocking ==> (forall i :: 0 <= i < |cases| ==> !cases[i].open) && !Lapsed(directives, |receipts|))
      && legal && Obeys(directives, r, |receipts|)
    }

    method Gate(r: Receipt, legal: bool, renewal: string) returns (error: Option<string>)
      requires Inv() && r.sequence == |receipts| + 1
      modifies this`active, this`cases
      ensures Inv() && active == InForce(directives, |receipts|) && (Twice(cases) <==> Twice(old(cases)))
      ensures error.None? <==> old(Passes(r, legal))
      ensures cases == if blocking && Lapsed(directives, |receipts|) then Opened(old(cases), renewal, |receipts|)
              else old(cases)
    {
      hide Consistent, Twice, CommittedBefore, Obeys;
      ObedienceNow(r);
      var d := ActiveDirective(renewal);
      if blocking {
        for i := 0 to |cases|
          invariant forall j :: 0 <= j < i ==> !cases[j].open
        {
          if cases[i].open { return Some("SUPERVISION_REQUIRED"); }
        }
        if d.None? && directives != [] {
          var latest := directives[|directives| - 1];
          if latest.mode != STOP && |receipts| - latest.committedAt >= latest.expires {
            return Some("SUPERVISION_REQUIRED");
          }
        }
      }
      ActiveIsNotLapsed(directives, |receipts|);
      if !legal { return Some("ACTION_UNAVAILABLE"); }
      if r.directive != (match d case None => None case Some(x) => Some(x.id)) { return Some("DIRECTIVE_REQUIRED"); }
      if d.Some? {
        if d.value.mode == STOP { return Some("SUPERVISOR_STOP"); }
        if |receipts| - d.value.committedAt >= d.value.budget { return Some("DIRECTIVE_BUDGET"); }
        if r.edge in d.value.prohibited { return Some("PROHIBITED_EDGE"); }
        if d.value.mode == RESET && !r.resets { return Some("RESET_DIRECTIVE"); }
      }
      error := None;
    }

    lemma ObedienceNow(r: Receipt)
      requires Inv() && r.sequence == |receipts| + 1
      ensures Obeys(directives, r, |receipts|) <==> ReceiptOk(directives, r)
    {
      hide Consistent, Obeys;
      AllBefore(directives, r.sequence);
      ObeysIsOk(directives, r);
    }

    method Await(r: Receipt)
      requires Inv() && waiting == Idle && r.sequence == |receipts| + 1
      modifies this`waiting
      ensures Inv() && waiting == Intended(r)
    {
      hide Founded, InForce;
      waiting := Intended(r);
    }

    /** An action takes the mutation lock: if it passes the gate, its intent is logged. A stopped run refuses it. */
    method Intend(directive: Option<DirectiveId>, edge: string, resets: bool, legal: bool, renewal: string)
      returns (error: Option<string>)
      requires Inv() && waiting in {Idle, Faulted}
      modifies this`active, this`cases, this`waiting
      ensures Inv() && (Twice(cases) <==> Twice(old(cases)))
      ensures var r := Receipt(|receipts| + 1, directive, edge, resets);
              && (error.None? <==> !old(Stopped()) && old(Passes(r, legal)))
              && waiting == if error.None? then Intended(r) else old(waiting)
      ensures cases == if !old(Stopped()) && blocking && Lapsed(directives, |receipts|)
              then Opened(old(cases), renewal, |receipts|) else old(cases)
    {
      hide Inv, Twice, Opened, Lapsed, InForce, Passes, History;
      HasSight();
      if waiting == Faulted { return Some("FAULTED"); }
      if sights[|sights| - 1].state == WIN { return Some("RUN_WON"); }
      var r := Receipt(|receipts| + 1, directive, edge, resets);
      error := Gate(r, legal, renewal);
      if error.None? { Await(r); }
    }

    /**
     * The intent is logged. A case may have been opened meanwhile, which needs no lock, so the gate is passed
     * again before the environment is called.
     */
    method Dispatch(logged: bool, legal: bool, renewal: string) returns (error: Option<string>)
      requires Inv() && waiting.Intended?
      modifies this`active, this`cases, this`waiting
      ensures Inv() && (Twice(cases) <==> Twice(old(cases)))
      ensures error.None? <==> logged && old(Passes(waiting.intent, legal))
      ensures waiting == if error.None? then InFlight(old(waiting).intent) else Idle
      ensures cases == if logged && blocking && Lapsed(directives, |receipts|)
              then Opened(old(cases), renewal, |receipts|) else old(cases)
    {
      hide Consistent, Twice, CommittedBefore, Obeys;
      var r := waiting.intent;
      waiting := Idle;
      if !logged { return Some("SESSION_LOG_FAILED"); }
      error := Gate(r, legal, renewal);
      if error.None? { waiting := InFlight(r); }
    }

    /** The environment has answered, and the receipt is appended; or it has failed, which faults the run. */
    method Land(answer: Option<Sight>)
      requires Inv() && waiting.InFlight?
      modifies this`receipts, this`sights, this`waiting
      ensures Inv() && waiting == if answer.Some? then Landed else Faulted
      ensures answer.None? ==> receipts == old(receipts) && sights == old(sights)
      ensures answer.Some? ==>
              receipts == old(receipts) + [old(waiting).receipt] && sights == old(sights) + [answer.value]
    {
      hide Consistent, Twice, CommittedBefore, Obeys;
      var r := waiting.receipt;
      if answer.None? {
        waiting := Faulted;
        return;
      }
      TakeReceipt(r, answer.value);
    }

    /** The receipt is logged and a case detected on it is opened; if it cannot be logged, the run is faulted. */
    method Settle(logged: bool, detected: Option<string>)
      requires Inv() && waiting == Landed
      modifies this`cases, this`waiting, this`recorded
      ensures Inv() && waiting == (if logged then Idle else Faulted) && (Twice(cases) <==> Twice(old(cases)))
      ensures recorded == old(recorded) + if logged then 1 else 0
      ensures cases == if logged && detected.Some? then Opened(old(cases), detected.value, |receipts|) else old(cases)
    {
      hide Consistent, Twice, CommittedBefore;
      if !logged {
        waiting := Faulted;
        return;
      }
      waiting, recorded := Idle, recorded + 1;
      if detected.Some? { OpenCase(detected.value); }
    }

    method TakeReceipt(r: Receipt, sight: Sight)
      requires Inv() && waiting == InFlight(r)
      modifies this`receipts, this`sights, this`waiting
      ensures Inv() && waiting == Landed && receipts == old(receipts) + [r] && sights == old(sights) + [sight]
    {
      hide Consistent, Twice, CommittedBefore, Obeys;
      ObedienceNow(r);
      if !Twice(cases) {
        ActKeepsConsistent(History(), r, sight);
      }
      ghost var n := |receipts|;
      LastInForce(directives, n);
      LastInForce(directives, n + 1);
      receipts, sights, waiting := receipts + [r], sights + [sight], Landed;
    }

    /**
     * The supervisor part of the checkpoint of a run of bounded length is accepted exactly when no case is on record
     * twice, and its receipts are covered exactly when the last one's result was recorded.
     */
    method Checkpoint(renewal: string) returns (log: Log, ok: bool)
      requires Inv() && waiting in {Idle, Faulted}
      modifies this`active, this`cases
      ensures Inv() && log == History() && log.active == active && (Twice(cases) <==> Twice(old(cases)))
      ensures ok <==>
              |log.cases| <= MAX_RECORDS && |log.directives| <= MAX_RECORDS && !Twice(log.cases)
                  && recorded == |receipts|
      ensures cases == if blocking && Lapsed(directives, |receipts|) then Opened(old(cases), renewal, |receipts|)
              else old(cases)
    {
      hide Consistent, Twice, Accepted;
      var d := ActiveDirective(renewal);
      AcceptedIsConsistent(Log(receipts, sights, cases, directives, active));
      log := Log(receipts, sights, cases, directives, active);
      if Twice(cases) {
        TwiceIsRefused(log);
      }
      ok := Validate(log);
      ok := ok && recorded == |receipts|;
    }
  }

  lemma FirstRecord(cases: seq<Case>, id: string)
    requires ResolvedInto([], cases, id, 0, true)
    ensures |cases| == 1 && Listed(cases, id) && !HasOpen(cases, id) && !Listed([], id) && !Twice(cases)
  {
    assert cases[0].id == id && !cases[0].open;
  }

  /** A directive is decided and written with nothing in between. */
  method Commit(run: Run, id: string, commit: string)
    requires run.Inv() && run.waiting == Idle && run.receipts == [] && !run.Stopped()
    requires !HasOpen(run.cases, id) && forall x :: x in run.directives ==> x.commit != commit
    modifies run
    ensures run.Inv() && run.waiting == Idle && run.receipts == [] && run.sights == old(run.sights)
    ensures ResolvedInto(old(run.cases), run.cases, id, 0, true) && run.recorded == old(run.recorded)
    ensures Twice(run.cases) <==> Twice(old(run.cases)) || Listed(old(run.cases), id)
    ensures |run.sights| > 0
    ensures run.directives == old(run.directives)
            + [Directive(DirectiveId(id, commit), id, commit, CONTINUE, 1, 1, 0, run.sights[0].hash, {})]
  {
    hide Run.Inv, Twice, Listed, HasOpen, ResolvedInto;
    DecideNow(run, id, commit);
    run.WriteDirective(true);
  }

  /** A directive on a case that has just been detected, with the least of budgets, takes the lock. */
  method DecideNow(run: Run, id: string, commit: string)
    requires run.Inv() && run.waiting == Idle && run.receipts == [] && !run.Stopped()
    requires !HasOpen(run.cases, id) && forall x :: x in run.directives ==> x.commit != commit
    modifies run`waiting
    ensures run.Inv() && |run.sights| > 0
    ensures run.waiting == Deciding(Directive(DirectiveId(id, commit), id, commit, CONTINUE, 1, 1, 0,
                run.sights[0].hash, {}), true)
  {
    hide Run.Inv, Twice, HasOpen;
    run.HasSight();
    var r := run.Decide(id, commit, CONTINUE, 1, 1, run.sights[0].hash, {}, Some(id));
  }

  /**
   * The failing run: a case is detected and decided, and detected and decided again before any action. The
   * checkpoint after the first decision is accepted, the one after the second refused, and so will be every later
   * one, since no step removes a record.
   */
  method DecidedTwice(first: Sight, blocking: bool, id: string, once: string, again: string)
    returns (before: bool, after: bool, run: Run)
    requires once != again && first.state != WIN
    ensures before && !after && run.Inv() && Twice(run.cases)
  {
    run := new Run(first, blocking);
    hide Run.Inv, Twice, ResolvedInto, Listed, HasOpen, Lapsed, Opened, InForce;
    NothingOpen(id);
    Commit(run, id, once);
    FirstRecord(run.cases, id);
    NotLapsedYet(run.directives[0]);
    assert run.directives == [run.directives[0]];
    var log: Log;
    log, before := run.Checkpoint("renewal");
    Commit(run, id, again);
    log, after := run.Checkpoint("renewal");
  }

  lemma NotLapsedYet(d: Directive)
    requires d.expires == 1 && d.committedAt == 0
    ensures !Lapsed([d], 0)
  {
  }

  lemma NothingLapsed()
    ensures !Lapsed([], 0)
  {
  }

  lemma NothingOpen(id: string)
    ensures !HasOpen([], id) && !Listed([], id) && !Twice([])
  {
  }

  /**
   * The other failing run: while the directive's intent is being logged, the case it was detected on is opened by the
   * boss. The directive then puts a second record of the case beside it.
   */
  method OpenedMeanwhile(first: Sight, blocking: bool, id: string, commit: string) returns (after: bool, run: Run)
    requires first.state != WIN
    ensures !after && run.Inv() && Twice(run.cases)
  {
    run := new Run(first, blocking);
    hide Run.Inv, Twice, ResolvedInto, Listed, HasOpen;
    NothingOpen(id);
    DecideNow(run, id, commit);
    NothingLapsed();
    var asked := run.OpenSupervisorCase(Some(id), "renewal");
    assert Listed(run.cases, id) by {
      OpenedIsListed(id, 0);
    }
    run.WriteDirective(true);
    var log: Log;
    log, after := run.Checkpoint("renewal");
  }

  lemma OpenedIsListed(id: string, n: int)
    ensures Listed(Opened([], id, n), id)
  {
    assert Opened([], id, n)[0].id == id;
  }
}
