// The forkable session log (crates/kernel/src/session.rs): validation, lineage, fork, replay and the
// chained state hash. The digest is a parameter: any function from text to 64 hexadecimal digits.
module Session {
  import opened CanonicalJson
  import opened CanonicalText
  import opened Collections
  import opened Wrappers

  datatype ParentRef = ParentRef(branch: string, index: nat)

  datatype Event = Event(index: nat, branch: string, parent: Option<ParentRef>, kind: string, payload: Json)

  datatype Fault =
    | Duplicate(at: nat)
    | FirstIndexNotZero(at: nat)
    | RootHasParent(at: nat)
    | MissingParent(at: nat)
    | UnknownParent(at: nat)
    | NotMonotonic(at: nat)

  // ---------------------------------------------------------------- what a valid log is

  function Count(events: seq<Event>, branch: string): nat {
    if events == [] then 0
    else Count(events[..|events| - 1], branch) + if events[|events| - 1].branch == branch then 1 else 0
  }

  ghost predicate Exists(events: seq<Event>, branch: string, index: nat) {
    exists j :: 0 <= j < |events| && events[j].branch == branch && events[j].index == index
  }

  /** The event continues its branch, or opens one: the root without a parent, others at an existing fork point. */
  ghost predicate Continues(before: seq<Event>, root: string, e: Event) {
    && e.index == Count(before, e.branch)
    && (e.index == 0 ==>
          if e.branch == root then e.parent.None?
          else e.parent.Some? && Exists(before, e.parent.value.branch, e.parent.value.index))
  }

  ghost predicate ValidLog(events: seq<Event>) {
    forall i :: 0 <= i < |events| ==> Continues(events[..i], events[0].branch, events[i])
  }

  lemma CountAppend(events: seq<Event>, e: Event, branch: string)
    ensures Count(events + [e], branch) == Count(events, branch) + if e.branch == branch then 1 else 0
  {
    assert (events + [e])[..|events|] == events;
  }

  /** Every prefix of a valid log is valid. */
  lemma PrefixIsValid(events: seq<Event>, n: nat)
    requires ValidLog(events) && n <= |events|
    ensures ValidLog(events[..n])
  {
    hide Continues;
    forall i | 0 <= i < n ensures Continues(events[..n][..i], events[..n][0].branch, events[..n][i]) {
      assert events[..n][..i] == events[..i];
    }
  }

  lemma ValidStep(events: seq<Event>, e: Event)
    ensures ValidLog(events + [e]) <==>
            ValidLog(events) && Continues(events, (events + [e])[0].branch, e)
  {
    hide Continues;
    var all := events + [e];
    assert all[..|events|] == events;
    if ValidLog(all) {
      PrefixIsValid(all, |events|);
      assert Continues(all[..|events|], all[0].branch, all[|events|]);
    }
    if ValidLog(events) && Continues(events, all[0].branch, e) {
      forall i | 0 <= i < |all| ensures Continues(all[..i], all[0].branch, all[i]) {
        if i < |events| {
          assert all[..i] == events[..i];
        }
      }
    }
  }

  // ---------------------------------------------------------------- the validator

  /** What the loop remembers of an error-free prefix. */
  ghost predicate Remembers(seen: set<(string, nat)>, next: map<string, nat>, before: seq<Event>) {
    && (forall b, k: nat :: (b, k) in seen <==> Exists(before, b, k))
    && (forall b :: (b in next <==> Count(before, b) > 0) && (b in next ==> next[b] == Count(before, b)))
    && (forall b, k: nat :: (b, k) in seen ==> k < Count(before, b))
  }

  lemma RememberOne(seen: set<(string, nat)>, next: map<string, nat>, before: seq<Event>, e: Event)
    requires Remembers(seen, next, before) && e.index == Count(before, e.branch)
    ensures Remembers(seen + {(e.branch, e.index)}, next[e.branch := e.index + 1], before + [e])
  {
    var all := before + [e];
    forall b, k: nat ensures Exists(all, b, k) <==> Exists(before, b, k) || (b == e.branch && k == e.index) {
      ExistsAppend(before, e, b, k);
    }
    forall b ensures Count(all, b) == Count(before, b) + if e.branch == b then 1 else 0 {
      CountAppend(before, e, b);
    }
  }

  lemma ExistsAppend(before: seq<Event>, e: Event, b: string, k: nat)
    ensures Exists(before + [e], b, k) <==> Exists(before, b, k) || (b == e.branch && k == e.index)
  {
    var all := before + [e];
    assert all[|before|] == e;
    if Exists(before, b, k) {
      var j :| 0 <= j < |before| && before[j].branch == b && before[j].index == k;
      assert all[j] == before[j];
    }
  }

  /** No earlier event has the branch and index of event `i`. */
  ghost predicate Fresh(events: seq<Event>, i: int) {
    && 0 <= i < |events|
    && forall j :: 0 <= j < i ==> !(events[j].branch == events[i].branch && events[j].index == events[i].index)
  }

  ghost predicate OpensBranch(events: seq<Event>, i: nat) {
    i < |events| && forall j :: 0 <= j < i ==> events[j].branch != events[i].branch
  }

  /** Event `j` is the last before `i` that counted for the branch: repetitions do not. */
  ghost predicate LastOf(events: seq<Event>, i: int, branch: string, j: int) {
    && 0 <= j < i <= |events| && events[j].branch == branch && Fresh(events, j)
    && forall k :: j < k < i && events[k].branch == branch ==> !Fresh(events, k)
  }

  /** What each fault says of the event it is reported for. */
  ghost predicate IsFault(events: seq<Event>, f: Fault) {
    var i := f.at;
    && i < |events|
    && match f
       case Duplicate(_) => !Fresh(events, i)
       case FirstIndexNotZero(_) => OpensBranch(events, i) && events[i].index != 0
       case RootHasParent(_) =>
         OpensBranch(events, i) && events[i].branch == events[0].branch && events[i].parent.Some?
       case MissingParent(_) =>
         OpensBranch(events, i) && events[i].branch != events[0].branch && events[i].parent.None?
       case UnknownParent(_) =>
         && OpensBranch(events, i) && events[i].branch != events[0].branch && events[i].parent.Some?
         && forall j :: 0 <= j < i ==>
              !(events[j].branch == events[i].parent.value.branch && events[j].index == events[i].parent.value.index)
       case NotMonotonic(_) =>
         && Fresh(events, i)
         && exists j :: LastOf(events, i, events[i].branch, j) && events[i].index != events[j].index + 1
  }

  ghost predicate Seen(seen: set<(string, nat)>, events: seq<Event>, i: nat)
    requires i <= |events|
  {
    forall b, k: nat :: (b, k) in seen <==> exists j :: 0 <= j < i && events[j].branch == b && events[j].index == k
  }

  ghost predicate Expects(next: map<string, nat>, events: seq<Event>, i: nat)
    requires i <= |events|
  {
    && (forall j :: 0 <= j < i ==> events[j].branch in next)
    && (forall b :: b in next ==> exists j :: LastOf(events, i, b, j) && next[b] == events[j].index + 1)
  }

  /** What the loop remembers of the first `i` events, faulty or not. */
  ghost predicate Tracks(seen: set<(string, nat)>, next: map<string, nat>, events: seq<Event>, i: nat)
    requires i <= |events|
  {
    Seen(seen, events, i) && Expects(next, events, i)
  }

  lemma FreshIsUnseen(seen: set<(string, nat)>, next: map<string, nat>, events: seq<Event>, i: nat)
    requires i < |events| && Tracks(seen, next, events, i)
    ensures Fresh(events, i) <==> (events[i].branch, events[i].index) !in seen
    ensures OpensBranch(events, i) <==> events[i].branch !in next
  {
    if events[i].branch in next {
      var j :| LastOf(events, i, events[i].branch, j) && next[events[i].branch] == events[j].index + 1;
    }
  }

  lemma OneLast(events: seq<Event>, i: nat, branch: string, j: int, k: int)
    requires LastOf(events, i, branch, j) && LastOf(events, i, branch, k)
    ensures j == k
  {
  }

  lemma StillLast(events: seq<Event>, i: nat, branch: string, j: int)
    requires i < |events| && LastOf(events, i, branch, j) && (events[i].branch != branch || !Fresh(events, i))
    ensures LastOf(events, i + 1, branch, j)
  {
    hide Fresh;
  }

  lemma NowLast(events: seq<Event>, i: nat)
    requires i < |events| && Fresh(events, i)
    ensures LastOf(events, i + 1, events[i].branch, i)
  {
    hide Fresh;
  }

  lemma SeenOne(seen: set<(string, nat)>, events: seq<Event>, i: nat)
    requires i < |events| && Seen(seen, events, i)
    ensures Seen(seen + {(events[i].branch, events[i].index)}, events, i + 1)
  {
    var after := seen + {(events[i].branch, events[i].index)};
    forall b, k: nat
      ensures (b, k) in after <==> exists j :: 0 <= j < i + 1 && events[j].branch == b && events[j].index == k
    {
      assert (b, k) in after <==> (b, k) in seen || (events[i].branch == b && events[i].index == k);
    }
  }

  lemma ExpectsOne(next: map<string, nat>, events: seq<Event>, i: nat, after: map<string, nat>)
    requires i < |events| && Expects(next, events, i)
    requires after == if Fresh(events, i) then next[events[i].branch := events[i].index + 1] else next
    requires Fresh(events, i) || events[i].branch in next
    ensures Expects(after, events, i + 1)
  {
    hide Fresh;
    var e := events[i];
    forall b | b in after ensures exists j :: LastOf(events, i + 1, b, j) && after[b] == events[j].index + 1 {
      if b == e.branch && Fresh(events, i) {
        NowLast(events, i);
      } else {
        var j :| LastOf(events, i, b, j) && next[b] == events[j].index + 1;
        StillLast(events, i, b, j);
      }
    }
  }

  lemma KnownBranch(seen: set<(string, nat)>, next: map<string, nat>, events: seq<Event>, i: nat)
    requires i < |events| && Tracks(seen, next, events, i) && (events[i].branch, events[i].index) in seen
    ensures events[i].branch in next
  {
    hide LastOf;
    var j :| 0 <= j < i && events[j].branch == events[i].branch && events[j].index == events[i].index;
  }

  lemma TracksOne(seen: set<(string, nat)>, next: map<string, nat>, events: seq<Event>, i: nat)
    requires i < |events| && Tracks(seen, next, events, i)
    ensures var e := events[i];
            if (e.branch, e.index) in seen then Tracks(seen, next, events, i + 1)
            else Tracks(seen + {(e.branch, e.index)}, next[e.branch := e.index + 1], events, i + 1)
  {
    FreshIsUnseen(seen, next, events, i);
    var e := events[i];
    if (e.branch, e.index) in seen {
      KnownBranch(seen, next, events, i);
    }
    hide Fresh, OpensBranch, LastOf, Seen, Expects;
    SeenOne(seen, events, i);
    if (e.branch, e.index) in seen {
      assert seen + {(e.branch, e.index)} == seen;
      ExpectsOne(next, events, i, next);
    } else {
      ExpectsOne(next, events, i, next[e.branch := e.index + 1]);
    }
  }

  lemma JudgedRepeated(seen: set<(string, nat)>, next: map<string, nat>, events: seq<Event>, i: nat, f: Fault)
    requires i < |events| && !Fresh(events, i) && (events[i].branch, events[i].index) in seen
    ensures f in Judge(seen, next, events[0].branch, events[i], i) <==> f.at == i && IsFault(events, f)
  {
  }

  lemma JudgedOpening(seen: set<(string, nat)>, next: map<string, nat>, events: seq<Event>, i: nat, f: Fault)
    requires i < |events| && OpensBranch(events, i) && events[i].branch !in next
    requires (events[i].branch, events[i].index) !in seen
    requires Seen(seen, events, i)
    ensures f in Judge(seen, next, events[0].branch, events[i], i) <==> f.at == i && IsFault(events, f)
  {
    assert Fresh(events, i);
    assert forall j :: !LastOf(events, i, events[i].branch, j);
  }

  lemma JudgedNext(seen: set<(string, nat)>, next: map<string, nat>, events: seq<Event>, i: nat, f: Fault, j: int)
    requires i < |events| && !OpensBranch(events, i) && Fresh(events, i) && events[i].branch in next
    requires (events[i].branch, events[i].index) !in seen
    requires LastOf(events, i, events[i].branch, j) && next[events[i].branch] == events[j].index + 1
    ensures f in Judge(seen, next, events[0].branch, events[i], i) <==> f.at == i && IsFault(events, f)
  {
    forall k | LastOf(events, i, events[i].branch, k) ensures k == j {
      OneLast(events, i, events[i].branch, j, k);
    }
    hide OpensBranch, Fresh, LastOf;
  }

  /** The faults reported for an event are those it has. */
  lemma JudgedRight(seen: set<(string, nat)>, next: map<string, nat>, events: seq<Event>, i: nat, f: Fault)
    requires i < |events| && Tracks(seen, next, events, i)
    ensures f in Judge(seen, next, events[0].branch, events[i], i) <==> f.at == i && IsFault(events, f)
  {
    FreshIsUnseen(seen, next, events, i);
    hide Fresh, OpensBranch, LastOf, Judge, IsFault;
    if (events[i].branch, events[i].index) in seen {
      JudgedRepeated(seen, next, events, i, f);
    } else if events[i].branch !in next {
      JudgedOpening(seen, next, events, i, f);
    } else {
      var j :| LastOf(events, i, events[i].branch, j) && next[events[i].branch] == events[j].index + 1;
      JudgedNext(seen, next, events, i, f, j);
    }
  }

  /** Every fault there is, and no other; the log is valid exactly when there is none. */
  method ValidateLog(events: seq<Event>) returns (errors: seq<Fault>)
    ensures errors == [] <==> ValidLog(events)
    ensures forall f :: f in errors <==> IsFault(events, f)
  {
    hide ValidLog, Remembers, Count, Tracks, IsFault, Judge;
    errors := [];
    var seen: set<(string, nat)> := {};
    var next: map<string, nat> := map[];
    EmptyLog();
    assert events[..0] == [];
    for i := 0 to |events|
      invariant errors == [] <==> ValidLog(events[..i])
      invariant errors == [] ==> Remembers(seen, next, events[..i])
      invariant Tracks(seen, next, events, i)
      invariant forall f :: f in errors <==> f.at < i && IsFault(events, f)
    {
      var e := events[i];
      assert events[..i + 1] == events[..i] + [e] && events[..i + 1][0] == events[0];
      ValidStep(events[..i], e);
      if errors == [] {
        RememberedStep(seen, next, events[..i], events[0].branch, e);
      }
      forall f ensures f in Judge(seen, next, events[0].branch, e, i) <==> f.at == i && IsFault(events, f) {
        JudgedRight(seen, next, events, i, f);
      }
      TracksOne(seen, next, events, i);
      var fault := Judge(seen, next, events[0].branch, e, i);
      errors := errors + fault;
      if errors == [] {
        RememberOne(seen, next, events[..i], e);
      }
      if (e.branch, e.index) !in seen {
        seen, next := seen + {(e.branch, e.index)}, next[e.branch := e.index + 1];
      }
    }
    assert events[..|events|] == events;
    FaultsAreInside(events);
  }

  lemma EmptyLog()
    ensures ValidLog([]) && Remembers({}, map[], []) && forall events :: Tracks({}, map[], events, 0)
  {
  }

  lemma FaultsAreInside(events: seq<Event>)
    ensures forall f :: IsFault(events, f) ==> f.at < |events|
  {
  }

  /** The violations of one event against what the loop remembers. */
  function Judge(seen: set<(string, nat)>, next: map<string, nat>, root: string, e: Event, at: nat): seq<Fault> {
    if (e.branch, e.index) in seen then [Duplicate(at)]
    else if e.branch !in next then
      (if e.index != 0 then [FirstIndexNotZero(at)] else [])
      + (if root == e.branch then if e.parent.Some? then [RootHasParent(at)] else []
         else
           match e.parent
           case None => [MissingParent(at)]
           case Some(p) => if (p.branch, p.index) in seen then [] else [UnknownParent(at)])
    else if e.index != next[e.branch] then [NotMonotonic(at)]
    else []
  }

  lemma RememberedStep(seen: set<(string, nat)>, next: map<string, nat>, before: seq<Event>, root: string, e: Event)
    requires Remembers(seen, next, before)
    ensures forall at :: Judge(seen, next, root, e, at) == [] <==> Continues(before, root, e)
    ensures Continues(before, root, e) ==> (e.branch, e.index) !in seen && e.index == Count(before, e.branch)
  {
    if e.branch !in next {
      forall k | (e.branch, k) in seen ensures false {}
    }
  }

  // ---------------------------------------------------------------- branches

  /** The events of a branch up to an index, in log order. */
  function OfBranch(events: seq<Event>, branch: string, upTo: Option<nat>): (own: seq<Event>)
    ensures forall e :: e in own ==> e.branch == branch && e in events
  {
    if events == [] then []
    else
      var e := events[|events| - 1];
      OfBranch(events[..|events| - 1], branch, upTo)
      + if e.branch == branch && (upTo.None? || e.index <= upTo.value) then [e] else []
  }

  /** In a valid log every branch is numbered 0, 1, 2, ... in log order. */
  lemma {:induction false} BranchIsContiguous(events: seq<Event>, branch: string)
    requires ValidLog(events)
    ensures var own := OfBranch(events, branch, None);
            |own| == Count(events, branch) && forall k :: 0 <= k < |own| ==> own[k].index == k
  {
    if events != [] {
      var n := |events| - 1;
      PrefixIsValid(events, n);
      BranchIsContiguous(events[..n], branch);
      assert Continues(events[..n], events[0].branch, events[n]);
    }
  }

  ghost predicate CutAt(events: seq<Event>, branch: string, k: nat) {
    var n := Count(events, branch);
    && |OfBranch(events, branch, None)| == n
    && OfBranch(events, branch, Some(k)) == OfBranch(events, branch, None)[..if k < n then k + 1 else n]
  }

  /** The events of a branch up to and with an index are its first ones, as many as there are. */
  lemma {:induction false} BranchUpTo(events: seq<Event>, branch: string, k: nat)
    requires ValidLog(events)
    ensures var n := Count(events, branch);
            && |OfBranch(events, branch, None)| == n
            && OfBranch(events, branch, Some(k)) == OfBranch(events, branch, None)[..if k < n then k + 1 else n]
  {
    hide *;
    Cut(events, branch, k);
    CutIsFirst(events, branch, k);
  }

  lemma CutIsFirst(events: seq<Event>, branch: string, k: nat)
    requires CutAt(events, branch, k)
    ensures var n := Count(events, branch);
            && |OfBranch(events, branch, None)| == n
            && OfBranch(events, branch, Some(k)) == OfBranch(events, branch, None)[..if k < n then k + 1 else n]
  {
    hide OfBranch, Count;
  }

  lemma {:induction false} Cut(events: seq<Event>, branch: string, k: nat)
    requires ValidLog(events)
    ensures CutAt(events, branch, k)
  {
    if events == [] {
      assert CutAt([], branch, k);
    } else {
      hide OfBranch, Count, CutAt;
      var n := |events| - 1;
      PrefixIsValid(events, n);
      assert Continues(events[..n], events[0].branch, events[n]);
      hide ValidLog;
      Cut(events[..n], branch, k);
      assert events == events[..n] + [events[n]];
      CutStep(events[..n], events[n], branch, k);
    }
  }

  lemma CutStep(before: seq<Event>, e: Event, branch: string, k: nat)
    requires CutAt(before, branch, k) && e.index == Count(before, e.branch)
    ensures CutAt(before + [e], branch, k)
  {
    hide OfBranch, Count;
    OfBranchAppend(before, e, branch, None);
    OfBranchAppend(before, e, branch, Some(k));
    CountAppend(before, e, branch);
    if e.branch == branch {
      CutOne(OfBranch(before, branch, None), OfBranch(before, branch, Some(k)), e, k);
    }
  }

  lemma CutOne(own: seq<Event>, cut: seq<Event>, e: Event, k: nat)
    requires cut == own[..if k < |own| then k + 1 else |own|] && e.index == |own|
    ensures cut + (if e.index <= k then [e] else []) == (own + [e])[..if k < |own| + 1 then k + 1 else |own| + 1]
  {
  }

  /** The place where a branch first appears, one past the end for an unknown branch. */
  function First(events: seq<Event>, branch: string): (n: nat)
    ensures n <= |events|
    ensures n < |events| ==> events[n].branch == branch
    ensures forall i :: 0 <= i < n ==> events[i].branch != branch
  {
    if events == [] || events[0].branch == branch then 0 else 1 + First(events[1..], branch)
  }

  function ForkPoint(events: seq<Event>, branch: string): Option<ParentRef> {
    var n := First(events, branch);
    if n < |events| then events[n].parent else None
  }

  lemma {:induction false} CountZero(events: seq<Event>, branch: string)
    ensures Count(events, branch) == 0 <==> forall i :: 0 <= i < |events| ==> events[i].branch != branch
  {
    if events != [] {
      CountZero(events[..|events| - 1], branch);
    }
  }

  /** A branch other than the root forks from an event that precedes it; the root forks from nothing. */
  lemma ForkPrecedes(events: seq<Event>, branch: string)
    requires ValidLog(events) && First(events, branch) < |events|
    ensures match ForkPoint(events, branch)
            case None => branch == events[0].branch
            case Some(p) => branch != events[0].branch && First(events, p.branch) < First(events, branch)
                            && Exists(events[..First(events, branch)], p.branch, p.index)
  {
    var n := First(events, branch);
    CountZero(events[..n], branch);
    assert Continues(events[..n], events[0].branch, events[n]);
    if branch != events[0].branch {
      var p := events[n].parent.value;
      var j :| 0 <= j < n && events[..n][j].branch == p.branch && events[..n][j].index == p.index;
    }
  }

  // ---------------------------------------------------------------- lineage

  function Branches(events: seq<Event>): set<string> {
    set i | 0 <= i < |events| :: events[i].branch
  }

  /** The source's recursion, with its guard against cycles. */
  function LineageUpTo(events: seq<Event>, branch: string, upTo: Option<nat>, visited: set<string>): seq<Event>
    decreases |Branches(events) - visited|
  {
    if branch in visited then []
    else
      (if First(events, branch) < |events| then
         assert branch in Branches(events) - visited;
         assert Branches(events) - (visited + {branch}) == (Branches(events) - visited) - {branch};
         match ForkPoint(events, branch)
         case None => []
         case Some(p) => LineageUpTo(events, p.branch, Some(p.index), visited + {branch})
       else [])
      + OfBranch(events, branch, upTo)
  }

  /** The lineage of a branch in a valid log: ancestors up to the fork point, then its own events. */
  function Lineage(events: seq<Event>, branch: string, upTo: Option<nat>): seq<Event>
    requires ValidLog(events)
    decreases First(events, branch)
  {
    if First(events, branch) == |events| then OfBranch(events, branch, upTo)
    else
      ForkPrecedes(events, branch);
      match ForkPoint(events, branch)
      case None => OfBranch(events, branch, upTo)
      case Some(p) => Lineage(events, p.branch, Some(p.index)) + OfBranch(events, branch, upTo)
  }

  /** Parents come strictly earlier, so the guard never cuts a lineage short. */
  lemma {:induction false} GuardNeverCuts(events: seq<Event>, branch: string, upTo: Option<nat>, visited: set<string>)
    requires ValidLog(events) && forall v :: v in visited ==> First(events, v) > First(events, branch)
    ensures LineageUpTo(events, branch, upTo, visited) == Lineage(events, branch, upTo)
    decreases First(events, branch)
  {
    hide ValidLog, OfBranch;
    if First(events, branch) < |events| {
      ForkPrecedes(events, branch);
      if ForkPoint(events, branch).Some? {
        var p := ForkPoint(events, branch).value;
        GuardNeverCuts(events, p.branch, Some(p.index), visited + {branch});
      }
    }
  }

  // ---------------------------------------------------------------- appending

  lemma FirstAppend(events: seq<Event>, e: Event, branch: string)
    ensures First(events, branch) < |events| ==> First(events + [e], branch) == First(events, branch)
    ensures First(events, branch) == |events| && branch != e.branch ==> First(events + [e], branch) == |events| + 1
    ensures First(events, branch) == |events| && branch == e.branch ==> First(events + [e], branch) == |events|
  {
    var all, n := events + [e], First(events + [e], branch);
    assert all[|events|] == e;
    if n < |events| {
      assert all[n] == events[n];
    }
    var m := First(events, branch);
    if m < |events| {
      assert all[m] == events[m];
    }
  }

  lemma OfBranchAppend(events: seq<Event>, e: Event, branch: string, upTo: Option<nat>)
    ensures OfBranch(events + [e], branch, upTo) ==
            OfBranch(events, branch, upTo) + if e.branch == branch && (upTo.None? || e.index <= upTo.value) then [e]
                else []
  {
    assert (events + [e])[..|events|] == events;
  }

  lemma {:induction false} ExistsIsCounted(events: seq<Event>, branch: string, index: nat)
    requires ValidLog(events) && Exists(events, branch, index)
    ensures index < Count(events, branch)
  {
    hide Continues;
    var n := |events| - 1;
    PrefixIsValid(events, n);
    assert events == events[..n] + [events[n]];
    ExistsAppend(events[..n], events[n], branch, index);
    if Exists(events[..n], branch, index) {
      ExistsIsCounted(events[..n], branch, index);
    } else {
      LastIsCounted(events);
    }
  }

  lemma LastIsCounted(events: seq<Event>)
    requires ValidLog(events) && events != []
    ensures var e := events[|events| - 1]; e.index + 1 == Count(events, e.branch)
  {
    var n := |events| - 1;
    assert Continues(events[..n], events[0].branch, events[n]);
  }

  lemma {:induction false} ExistsLater(events: seq<Event>, n: nat, branch: string, index: nat)
    requires n <= |events| && Exists(events[..n], branch, index)
    ensures Exists(events, branch, index)
  {
    var j :| 0 <= j < n && events[..n][j].branch == branch && events[..n][j].index == index;
    assert events[j].branch == branch && events[j].index == index;
  }

  /** The part of a branch that is fixed: nothing of it up to `upTo` can still be appended. */
  ghost predicate Settled(events: seq<Event>, e: Event, branch: string, upTo: Option<nat>) {
    branch == e.branch ==> upTo.Some? && upTo.value < Count(events, branch)
  }

  /** Appending to one branch changes no other lineage, not even one that forks from that branch. */
  lemma {:induction false} LineageIsIsolated(events: seq<Event>, e: Event, branch: string, upTo: Option<nat>)
    requires ValidLog(events) && ValidLog(events + [e]) && Settled(events, e, branch, upTo)
    ensures Lineage(events + [e], branch, upTo) == Lineage(events, branch, upTo)
    decreases First(events, branch)
  {
    hide ValidLog, OfBranch, Count;
    FirstAppend(events, e, branch);
    OfBranchAppend(events, e, branch, upTo);
    SettledOmits(events, e, branch, upTo);
    if First(events, branch) < |events| {
      assert ForkPoint(events + [e], branch) == ForkPoint(events, branch);
      ForkPrecedes(events, branch);
      if ForkPoint(events, branch).Some? {
        var p := ForkPoint(events, branch).value;
        ExistsLater(events, First(events, branch), p.branch, p.index);
        ExistsIsCounted(events, p.branch, p.index);
        LineageIsIsolated(events, e, p.branch, Some(p.index));
      }
    }
  }

  lemma SettledOmits(events: seq<Event>, e: Event, branch: string, upTo: Option<nat>)
    requires ValidLog(events + [e]) && Settled(events, e, branch, upTo)
    ensures !(e.branch == branch && (upTo.None? || e.index <= upTo.value))
    ensures First(events, branch) == |events| ==> branch != e.branch
  {
    ValidStep(events, e);
    CountZero(events, branch);
  }

  // ---------------------------------------------------------------- fork

  /** The first event of a new branch, or the reason there cannot be one. */
  method Fork(events: seq<Event>, atBranch: string, atIndex: nat, newBranch: string) returns (r: Result<Event, string>)
    ensures r.Ok? <==> Exists(events, atBranch, atIndex) && Count(events, newBranch) == 0
    ensures r.Ok? ==> r.value == Event(0, newBranch, Some(ParentRef(atBranch, atIndex)), "fork", Null)
  {
    var found, taken := false, false;
    for i := 0 to |events|
      invariant found <==> exists j :: 0 <= j < i && events[j].branch == atBranch && events[j].index == atIndex
      invariant taken <==> exists j :: 0 <= j < i && events[j].branch == newBranch
    {
      if events[i].branch == atBranch && events[i].index == atIndex { found := true; }
      if events[i].branch == newBranch { taken := true; }
    }
    CountZero(events, newBranch);
    if !found { return Err("fork point does not exist"); }
    if taken { return Err("branch already exists"); }
    r := Ok(Event(0, newBranch, Some(ParentRef(atBranch, atIndex)), "fork", Null));
  }

  lemma ForkIsValid(events: seq<Event>, e: Event)
    requires ValidLog(events) && e.index == 0 && e.parent.Some?
    requires Exists(events, e.parent.value.branch, e.parent.value.index)
    requires Count(events, e.branch) == 0
    ensures ValidLog(events + [e]) && First(events, e.branch) == |events| && OfBranch(events, e.branch, None) == []
  {
    hide ValidLog, Continues, OfBranch;
    CountZero(events, e.branch);
    ForkContinues(events, e);
    ValidStep(events, e);
    NothingOfBranch(events, e.branch);
  }

  lemma LineageUnfolds(events: seq<Event>, branch: string, upTo: Option<nat>)
    requires ValidLog(events) && First(events, branch) < |events| && ForkPoint(events, branch).Some?
    ensures var p := ForkPoint(events, branch).value;
            Lineage(events, branch, upTo) == Lineage(events, p.branch, Some(p.index)) + OfBranch(events, branch, upTo)
  {
    hide ValidLog, OfBranch;
    ForkPrecedes(events, branch);
  }

  /** A fork keeps the log valid, and the new lineage is the parent's up to the fork point and then the fork. */
  lemma ForkExtends(events: seq<Event>, atBranch: string, atIndex: nat, newBranch: string)
    requires ValidLog(events) && Exists(events, atBranch, atIndex) && Count(events, newBranch) == 0
    ensures var e := Event(0, newBranch, Some(ParentRef(atBranch, atIndex)), "fork", Null);
            && ValidLog(events + [e])
            && Lineage(events + [e], newBranch, None) == Lineage(events, atBranch, Some(atIndex)) + [e]
  {
    hide ValidLog, OfBranch, Count, Lineage, First, Continues;
    var e := Event(0, newBranch, Some(ParentRef(atBranch, atIndex)), "fork", Null);
    ForkIsValid(events, e);
    ExistsIsCounted(events, atBranch, atIndex);
    FirstAppend(events, e, newBranch);
    OfBranchAppend(events, e, newBranch, None);
    LineageUnfolds(events + [e], newBranch, None);
    LineageIsIsolated(events, e, atBranch, Some(atIndex));
  }

  lemma ForkContinues(events: seq<Event>, e: Event)
    requires ValidLog(events) && e.index == 0 && e.parent.Some?
    requires Exists(events, e.parent.value.branch, e.parent.value.index)
    requires Count(events, e.branch) == 0
    ensures Continues(events, (events + [e])[0].branch, e)
  {
    CountZero(events, e.branch);
  }

  lemma {:induction false} NothingOfBranch(events: seq<Event>, branch: string)
    requires Count(events, branch) == 0
    ensures OfBranch(events, branch, None) == []
  {
    if events != [] {
      NothingOfBranch(events[..|events| - 1], branch);
    }
  }

  // ---------------------------------------------------------------- the chained state hash

  function EventJson(e: Event): Json {
    var head := [Field("index", Number(Int(e.index))), Field("branch", Str(e.branch))];
    var parent := match e.parent
      case None => []
      case Some(p) => [Field("parent", Obj([Field("branch", Str(p.branch)), Field("index", Number(Int(p.index)))]))];
    Obj(head + parent + [Field("kind", Str(e.kind)), Field("payload", e.payload)])
  }

  ghost function Entry(name: string, text: string): string {
    ['"'] + name + ['"'] + ":" + text
  }

  /** The text of a fork point. */
  ghost predicate IsParentText(p: ParentRef, t: string) {
    exists branch: string, index: string :: IsStringText(p.branch, branch) && IsIntegerText(p.index, index)
      && t == "{" + (Entry("branch", branch) + "," + Entry("index", index)) + "}"
  }

  /** The text of an event: its fields in the order of their names, the parent left out if there is none. */
  ghost predicate IsEventText(e: Event, t: string) {
    exists branch: string, index: string, kind: string, payload: string ::
      && IsStringText(e.branch, branch) && IsIntegerText(e.index, index) && IsStringText(e.kind, kind)
      && IsText(e.payload, payload)
      && match e.parent
         case None => t == "{" + (Entry("branch", branch) + "," + Entry("index", index) + "," + Entry("kind", kind)
                                  + "," + Entry("payload", payload)) + "}"
         case Some(p) =>
           exists parent: string :: IsParentText(p, parent)
             && t == "{" + (Entry("branch", branch) + "," + Entry("index", index) + "," + Entry("kind", kind)
                            + "," + Entry("parent", parent) + "," + Entry("payload", payload)) + "}"
  }

  lemma {:induction false} PlainName(name: string)
    requires forall c :: c in name ==> c !in SHORT && c as int >= 32
    ensures IsStringText(name, ['"'] + name + ['"'])
  {
    hide Glued, IsCharText;
    var parts := seq(|name|, i requires 0 <= i < |name| => [name[i]]);
    Letters(name, parts);
    forall i | 0 <= i < |name| ensures IsCharText(name[i], parts[i]) {
      assert name[i] in name;
      Letter(name[i]);
    }
  }

  lemma Letter(c: char)
    requires c !in SHORT && c as int >= 32
    ensures IsCharText(c, [c])
  {
  }

  lemma {:induction false} Letters(name: string, parts: seq<string>)
    requires |parts| == |name| && forall i :: 0 <= i < |name| ==> parts[i] == [name[i]]
    ensures Glued(parts) == name
  {
    if name != [] {
      Letters(name[..|name| - 1], parts[..|parts| - 1]);
      assert name == name[..|name| - 1] + [name[|name| - 1]];
    }
  }

  lemma Below(a: string, b: string, k: nat)
    requires k < |a| && k < |b| && a[..k] == b[..k] && a[k] < b[k]
    ensures KeyBelow(a, b)
  {
  }

  lemma NamesAreOrdered()
    ensures KeyBelow("branch", "index") && KeyBelow("branch", "kind") && KeyBelow("branch", "parent")
    ensures KeyBelow("branch", "payload") && KeyBelow("index", "kind") && KeyBelow("index", "parent")
    ensures KeyBelow("index", "payload") && KeyBelow("kind", "parent") && KeyBelow("kind", "payload")
    ensures KeyBelow("parent", "payload")
  {
    hide KeyBelow;
    Below("branch", "index", 0);
    Below("branch", "kind", 0);
    Below("branch", "parent", 0);
    Below("branch", "payload", 0);
    Below("index", "kind", 0);
    Below("index", "parent", 0);
    Below("index", "payload", 0);
    Below("kind", "parent", 0);
    Below("kind", "payload", 0);
    Below("parent", "payload", 2);
  }

  ghost predicate Plainly(name: string) {
    forall c :: c in name ==> c !in SHORT && c as int >= 32
  }

  lemma NamesArePlain()
    ensures Plainly("branch") && Plainly("index") && Plainly("kind") && Plainly("parent") && Plainly("payload")
  {
    hide Plainly;
    LettersArePlain("branch");
    LettersArePlain("index");
    LettersArePlain("kind");
    LettersArePlain("parent");
    LettersArePlain("payload");
  }

  lemma LettersArePlain(name: string)
    requires forall i :: 0 <= i < |name| ==> 'a' <= name[i] <= 'z'
    ensures Plainly(name)
  {
    forall c | c in name ensures c !in SHORT && c as int >= 32 {
      assert c >= 'a';
    }
  }

  lemma ListedMore(texts: seq<string>, last: string)
    requires texts != []
    ensures Listed(texts + [last]) == Listed(texts) + "," + last
  {
    assert (texts + [last])[..|texts|] == texts;
  }

  lemma ListedOne(t: string)
    ensures Listed([t]) == t
  {
  }

  lemma OrderedFields(fields: seq<Field>, at: seq<int>, keys: seq<string>, texts: seq<string>)
    requires AreFieldTexts(fields, at, keys, texts)
    ensures |keys| == |texts| && IsText(Obj(fields), "{" + Listed(Paired(keys, texts)) + "}")
  {
    hide Listed, Paired;
    FieldTextsAt(fields, at, keys, texts);
  }

  lemma ListedFour(a: string, b: string, c: string, d: string)
    ensures Listed([a, b]) == a + "," + b
    ensures Listed([a, b, c, d]) == a + "," + b + "," + c + "," + d
  {
    hide Listed;
    ListedOne(a);
    ListedMore([a], b);
    ListedMore([a, b], c);
    ListedMore([a, b, c], d);
    assert [a] + [b] == [a, b] && [a, b] + [c] == [a, b, c] && [a, b, c] + [d] == [a, b, c, d];
  }

  lemma ListedFive(a: string, b: string, c: string, d: string, e: string)
    ensures Listed([a, b, c, d, e]) == a + "," + b + "," + c + "," + d + "," + e
  {
    hide Listed;
    ListedFour(a, b, c, d);
    ListedMore([a, b, c, d], e);
    assert [a, b, c, d] + [e] == [a, b, c, d, e];
  }

  lemma TwoFields(fields: seq<Field>, t: string, u: string)
    requires |fields| == 2 && KeyBelow(fields[0].key, fields[1].key)
    requires Plainly(fields[0].key) && Plainly(fields[1].key)
    requires IsText(fields[0].value, t) && IsText(fields[1].value, u)
    ensures IsText(Obj(fields), "{" + (Entry(fields[0].key, t) + "," + Entry(fields[1].key, u)) + "}")
  {
    hide KeyBelow, IsStringText, Listed, IsText;
    PlainName(fields[0].key);
    PlainName(fields[1].key);
    var k, l := ['"'] + fields[0].key + ['"'], ['"'] + fields[1].key + ['"'];
    var at, keys, texts := [0, 1], [k, l], [t, u];
    assert at[0] == 0 && at[1] == 1;
    assert AreFieldTexts(fields, at, keys, texts);
    OrderedFields(fields, at, keys, texts);
    assert Paired(keys, texts) == [Entry(fields[0].key, t), Entry(fields[1].key, u)];
    ListedFour(Entry(fields[0].key, t), Entry(fields[1].key, u), "", "");
  }

  lemma FourFields(fields: seq<Field>, j: string, k: string, l: string, m: string)
    requires |fields| == 4 && forall i :: 0 <= i < 4 ==> Plainly(fields[i].key)
    requires KeyBelow(fields[1].key, fields[0].key) && KeyBelow(fields[1].key, fields[2].key)
    requires KeyBelow(fields[1].key, fields[3].key) && KeyBelow(fields[0].key, fields[2].key)
    requires KeyBelow(fields[0].key, fields[3].key) && KeyBelow(fields[2].key, fields[3].key)
    requires IsText(fields[1].value, j) && IsText(fields[0].value, k)
    requires IsText(fields[2].value, l) && IsText(fields[3].value, m)
    ensures IsText(Obj(fields), "{" + (Entry(fields[1].key, j) + "," + Entry(fields[0].key, k) + ","
                                       + Entry(fields[2].key, l) + "," + Entry(fields[3].key, m)) + "}")
  {
    hide KeyBelow, IsStringText, Listed, IsText, Plainly;
    var at, texts := [1, 0, 2, 3], [j, k, l, m];
    assert at[0] == 1 && at[1] == 0 && at[2] == 2 && at[3] == 3;
    assert InKeyOrder(fields, at);
    var keys := NamesOf(fields, at);
    assert AreFieldTexts(fields, at, keys, texts);
    OrderedFields(fields, at, keys, texts);
    assert Paired(keys, texts) == [Entry(fields[1].key, j), Entry(fields[0].key, k), Entry(fields[2].key, l),
                                   Entry(fields[3].key, m)];
    ListedFour(Entry(fields[1].key, j), Entry(fields[0].key, k), Entry(fields[2].key, l), Entry(fields[3].key, m));
  }

  lemma FiveFields(fields: seq<Field>, j: string, k: string, l: string, m: string, n: string)
    requires |fields| == 5 && forall i :: 0 <= i < 5 ==> Plainly(fields[i].key)
    requires KeyBelow(fields[1].key, fields[0].key) && KeyBelow(fields[1].key, fields[3].key)
    requires KeyBelow(fields[1].key, fields[2].key) && KeyBelow(fields[1].key, fields[4].key)
    requires KeyBelow(fields[0].key, fields[3].key) && KeyBelow(fields[0].key, fields[2].key)
    requires KeyBelow(fields[0].key, fields[4].key) && KeyBelow(fields[3].key, fields[2].key)
    requires KeyBelow(fields[3].key, fields[4].key) && KeyBelow(fields[2].key, fields[4].key)
    requires IsText(fields[1].value, j) && IsText(fields[0].value, k)
    requires IsText(fields[3].value, l) && IsText(fields[2].value, m) && IsText(fields[4].value, n)
    ensures IsText(Obj(fields), "{" + (Entry(fields[1].key, j) + "," + Entry(fields[0].key, k) + ","
                                       + Entry(fields[3].key, l) + "," + Entry(fields[2].key, m) + ","
                                       + Entry(fields[4].key, n)) + "}")
  {
    hide KeyBelow, IsStringText, Listed, IsText, Plainly;
    var at, texts := [1, 0, 3, 2, 4], [j, k, l, m, n];
    assert at[0] == 1 && at[1] == 0 && at[2] == 3 && at[3] == 2 && at[4] == 4;
    assert InKeyOrder(fields, at);
    var keys := NamesOf(fields, at);
    assert AreFieldTexts(fields, at, keys, texts);
    OrderedFields(fields, at, keys, texts);
    assert Paired(keys, texts) == [Entry(fields[1].key, j), Entry(fields[0].key, k), Entry(fields[3].key, l),
                                   Entry(fields[2].key, m), Entry(fields[4].key, n)];
    ListedFive(Entry(fields[1].key, j), Entry(fields[0].key, k), Entry(fields[3].key, l), Entry(fields[2].key, m),
               Entry(fields[4].key, n));
  }

  lemma NamesOf(fields: seq<Field>, at: seq<int>) returns (keys: seq<string>)
    requires |at| == |fields| && forall i :: 0 <= i < |at| ==> 0 <= at[i] < |fields|
    requires forall i :: 0 <= i < |fields| ==> Plainly(fields[i].key)
    ensures |keys| == |fields|
    ensures forall i :: 0 <= i < |at| ==>
              keys[i] == ['"'] + fields[at[i]].key + ['"'] && IsStringText(fields[at[i]].key, keys[i])
  {
    hide IsStringText;
    keys := seq(|at|, i requires 0 <= i < |at| => ['"'] + fields[at[i]].key + ['"']);
    forall i | 0 <= i < |at| ensures IsStringText(fields[at[i]].key, keys[i]) {
      PlainName(fields[at[i]].key);
    }
  }

  lemma ParentText(p: ParentRef, t: string)
    requires IsParentText(p, t)
    ensures IsText(ParentJson(p), t)
  {
    var branch: string, index: string :| IsStringText(p.branch, branch) && IsIntegerText(p.index, index)
      && t == "{" + (Entry("branch", branch) + "," + Entry("index", index)) + "}";
    var fields := ParentJson(p).fields;
    assert fields[0] == Field("branch", Str(p.branch)) && fields[1] == Field("index", Number(Int(p.index)));
    ScalarTexts(p.branch, p.index, branch, index);
    NamesAreOrdered();
    NamesArePlain();
    hide *;
    TwoFields(fields, branch, index);
  }

  lemma ScalarTexts(s: string, n: nat, t: string, u: string)
    requires IsStringText(s, t) && IsIntegerText(n, u)
    ensures IsText(Str(s), t) && IsText(Number(Int(n)), u)
  {
    hide IsStringText, IsIntegerText;
  }

  lemma EventFields(e: Event)
    ensures var fields := Fields(e);
            && EventJson(e) == Obj(fields)
            && fields == match e.parent
                 case None => [Field("index", Number(Int(e.index))), Field("branch", Str(e.branch)),
                               Field("kind", Str(e.kind)), Field("payload", e.payload)]
                 case Some(p) => [Field("index", Number(Int(e.index))), Field("branch", Str(e.branch)),
                                  Field("parent", ParentJson(p)), Field("kind", Str(e.kind)),
                                  Field("payload", e.payload)]
  {
  }

  /** The printed event is the text described. */
  lemma EventTextIs(e: Event, t: string)
    requires IsEventText(e, t)
    ensures IsText(EventJson(e), t)
  {
    hide Entry, IsStringText, IsIntegerText, IsText, IsParentText, EventJson, Fields, KeyBelow, Plainly, ParentJson;
    var branch: string, index: string, kind: string, payload: string :|
      && IsStringText(e.branch, branch) && IsIntegerText(e.index, index) && IsStringText(e.kind, kind)
      && IsText(e.payload, payload)
      && match e.parent
         case None => t == "{" + (Entry("branch", branch) + "," + Entry("index", index) + "," + Entry("kind", kind)
                                  + "," + Entry("payload", payload)) + "}"
         case Some(p) =>
           exists parent: string :: IsParentText(p, parent)
             && t == "{" + (Entry("branch", branch) + "," + Entry("index", index) + "," + Entry("kind", kind)
                            + "," + Entry("parent", parent) + "," + Entry("payload", payload)) + "}";
    EventFields(e);
    ScalarTexts(e.branch, e.index, branch, index);
    ScalarTexts(e.kind, e.index, kind, index);
    NamesAreOrdered();
    NamesArePlain();
    match e.parent
    case None => FourFields(Fields(e), branch, index, kind, payload);
    case Some(p) =>
      var parent: string :| IsParentText(p, parent)
        && t == "{" + (Entry("branch", branch) + "," + Entry("index", index) + "," + Entry("kind", kind)
                       + "," + Entry("parent", parent) + "," + Entry("payload", payload)) + "}";
      ParentText(p, parent);
      FiveFields(Fields(e), branch, index, kind, parent, payload);
  }

  lemma EventIsKeyed(e: Event)
    requires Keyed(e.payload)
    ensures Keyed(EventJson(e))
  {
    EventFields(e);
    FieldsAreKeyed(e);
    if e.parent.Some? {
      ParentFields(e.parent.value);
      ParentIsKeyed(e.parent.value);
    }
    hide EventJson, Fields, NormalFields, ParentJson;
  }

  lemma ParentIsKeyed(p: ParentRef)
    requires DistinctKeys(ParentJson(p).fields)
    ensures Keyed(ParentJson(p))
  {
  }

  lemma EventHasText(e: Event) returns (t: string)
    requires Keyed(e.payload)
    ensures IsEventText(e, t)
  {
    hide IsStringText, IsIntegerText, IsText, IntText, Quote, Canonical, Entry;
    QuoteIsStringText(e.branch);
    IntTextIsIntegerText(e.index);
    QuoteIsStringText(e.kind);
    CanonicalIsText(e.payload);
    var branch, index, kind, payload := Quote(e.branch), IntText(e.index), Quote(e.kind), Canonical(e.payload);
    match e.parent
    case None =>
      t := "{" + (Entry("branch", branch) + "," + Entry("index", index) + "," + Entry("kind", kind)
                  + "," + Entry("payload", payload)) + "}";
    case Some(p) =>
      QuoteIsStringText(p.branch);
      IntTextIsIntegerText(p.index);
      var parent := "{" + (Entry("branch", Quote(p.branch)) + "," + Entry("index", IntText(p.index))) + "}";
      assert IsParentText(p, parent);
      t := "{" + (Entry("branch", branch) + "," + Entry("index", index) + "," + Entry("kind", kind)
                  + "," + Entry("parent", parent) + "," + Entry("payload", payload)) + "}";
  }

  /** What is hashed of an event is exactly the text described. */
  lemma EventTextIsExact(e: Event, t: string)
    requires Keyed(e.payload)
    ensures IsEventText(e, t) <==> t == Canonical(EventJson(e))
  {
    hide *;
    var u := EventHasText(e);
    EventTextIs(e, u);
    EventIsKeyed(e);
    TextIsExact(EventJson(e), u);
    if IsEventText(e, t) {
      EventTextIs(e, t);
      TextIsExact(EventJson(e), t);
    }
  }

  function Texts(events: seq<Event>): (ts: seq<string>)
    ensures |ts| == |events|
  {
    seq(|events|, i requires 0 <= i < |events| => Canonical(EventJson(events[i])))
  }

  predicate IsHex(c: char) { '0' <= c <= '9' || 'a' <= c <= 'f' }

  /** A digest renders as 64 lower-case hexadecimal digits. */
  ghost predicate IsDigest(digest: string -> string) {
    forall t :: |digest(t)| == 64 && forall c :: c in digest(t) ==> IsHex(c)
  }

  function Chain(digest: string -> string, texts: seq<string>): string {
    if texts == [] then "" else digest(Chain(digest, texts[..|texts| - 1]) + texts[|texts| - 1])
  }

  /** The text digested at place `m` of a chain. */
  function Digested(digest: string -> string, texts: seq<string>, m: int): string
    requires 0 <= m < |texts|
  {
    Chain(digest, texts[..m]) + texts[m]
  }

  /** The digest tells apart the texts that the two chains actually digest. */
  ghost predicate TellsApart(digest: string -> string, a: seq<string>, b: seq<string>) {
    forall m, n :: 0 <= m < |a| && 0 <= n < |b| && digest(Digested(digest, a, m)) == digest(Digested(digest, b, n)) ==>
      Digested(digest, a, m) == Digested(digest, b, n)
  }

  /** Any log has a hash; a valid one hashes its lineage, and an unknown branch hashes to the empty string. */
  method StateHash(events: seq<Event>, branch: string, digest: string -> string) returns (hex: string)
    ensures hex == Chain(digest, Texts(LineageUpTo(events, branch, None, {})))
    ensures ValidLog(events) ==> hex == Chain(digest, Texts(Lineage(events, branch, None)))
    ensures Count(events, branch) == 0 ==> hex == ""
    ensures forall ts: seq<string> :: AreEventTexts(LineageUpTo(events, branch, None, {}), ts) ==>
              hex == Chain(digest, ts)
  {
    hide ValidLog, Lineage, LineageUpTo, Count, Canonical, EventJson;
    if ValidLog(events) {
      GuardNeverCuts(events, branch, None, {});
    }
    if Count(events, branch) == 0 {
      UnknownIsEmpty(events, branch);
    }
    var lineage := LineageUpTo(events, branch, None, {});
    hex := "";
    for i := 0 to |lineage|
      invariant hex == Chain(digest, Texts(lineage)[..i])
    {
      hex := digest(hex + Canonical(EventJson(lineage[i])));
      assert Texts(lineage)[..i + 1][..i] == Texts(lineage)[..i];
    }
    assert Texts(lineage)[..|lineage|] == Texts(lineage);
    forall ts: seq<string> | AreEventTexts(lineage, ts) ensures ts == Texts(lineage) {
      TextsAreExact(lineage, ts);
    }
  }

  ghost predicate AreEventTexts(events: seq<Event>, ts: seq<string>) {
    |ts| == |events| && forall i :: 0 <= i < |events| ==> Keyed(events[i].payload) && IsEventText(events[i], ts[i])
  }

  lemma TextsAreExact(events: seq<Event>, ts: seq<string>)
    requires AreEventTexts(events, ts)
    ensures ts == Texts(events)
  {
    hide Keyed, IsEventText, Canonical, EventJson;
    forall i | 0 <= i < |events| ensures ts[i] == Texts(events)[i] {
      EventTextIsExact(events[i], ts[i]);
    }
  }

  lemma UnknownIsEmpty(events: seq<Event>, branch: string)
    requires Count(events, branch) == 0
    ensures LineageUpTo(events, branch, None, {}) == []
  {
    CountZero(events, branch);
    NothingOfBranch(events, branch);
  }

  lemma ChainIsHex(digest: string -> string, texts: seq<string>)
    requires IsDigest(digest)
    ensures forall c :: c in Chain(digest, texts) ==> IsHex(c)
    ensures |Chain(digest, texts)| == if texts == [] then 0 else 64
  {
  }

  /** Hexadecimal text followed by text that starts otherwise splits in one way only. */
  lemma {:induction false} SplitsOnce(p: string, q: string, s: string, t: string)
    requires (forall c :: c in p ==> IsHex(c)) && (forall c :: c in q ==> IsHex(c))
    requires s != [] && t != [] && !IsHex(s[0]) && !IsHex(t[0]) && p + s == q + t
    ensures p == q && s == t
  {
    if p == [] && q == [] {
      assert p + s == s && q + t == t;
    } else {
      assert p != [] ==> p[0] in p;
      assert q != [] ==> q[0] in q;
      assert (p + s)[0] == (q + t)[0] && p != [] && q != [];
      assert (p + s)[1..] == p[1..] + s && (q + t)[1..] == q[1..] + t;
      SplitsOnce(p[1..], q[1..], s, t);
      assert p == [p[0]] + p[1..] && q == [q[0]] + q[1..];
    }
  }

  lemma TellsApartPrefix(digest: string -> string, a: seq<string>, b: seq<string>, m: nat, n: nat)
    requires TellsApart(digest, a, b) && m <= |a| && n <= |b|
    ensures TellsApart(digest, a[..m], b[..n])
  {
    forall i | 0 <= i < m ensures Digested(digest, a[..m], i) == Digested(digest, a, i) {
      assert a[..m][..i] == a[..i];
    }
    forall i | 0 <= i < n ensures Digested(digest, b[..n], i) == Digested(digest, b, i) {
      assert b[..n][..i] == b[..i];
    }
  }

  /** One chained hash means one list of texts, as long as the digest tells apart what the chains digest. */
  lemma {:induction false} ChainDetermines(digest: string -> string, a: seq<string>, b: seq<string>)
    requires IsDigest(digest) && TellsApart(digest, a, b) && Chain(digest, a) == Chain(digest, b)
    requires forall i :: 0 <= i < |a| ==> a[i] != [] && !IsHex(a[i][0])
    requires forall i :: 0 <= i < |b| ==> b[i] != [] && !IsHex(b[i][0])
    ensures a == b
    decreases |a|
  {
    hide IsHex;
    ChainIsHex(digest, a);
    ChainIsHex(digest, b);
    if a != [] && b != [] {
      var m, n := |a| - 1, |b| - 1;
      assert Digested(digest, a, m) == Digested(digest, b, n);
      hide TellsApart;
      ChainIsHex(digest, a[..m]);
      ChainIsHex(digest, b[..n]);
      SplitsOnce(Chain(digest, a[..m]), Chain(digest, b[..n]), a[m], b[n]);
      TellsApartPrefix(digest, a, b, m, n);
      ChainDetermines(digest, a[..m], b[..n]);
      assert a == a[..m] + [a[m]] && b == b[..n] + [b[n]];
    }
  }

  lemma EventTextStarts(e: Event)
    ensures Canonical(EventJson(e)) != [] && !IsHex(Canonical(EventJson(e))[0])
  {
  }

  /** What the hash sees of an event. */
  function NormalEvent(e: Event): Event {
    e.(payload := Normal(e.payload))
  }

  function NormalEvents(events: seq<Event>): (ns: seq<Event>)
    ensures |ns| == |events|
  {
    seq(|events|, i requires 0 <= i < |events| => NormalEvent(events[i]))
  }

  // ---------------------------------------------------------------- the hash determines the history

  function Fields(e: Event): seq<Field> {
    EventJson(e).fields
  }

  function ParentJson(p: ParentRef): Json {
    Obj([Field("branch", Str(p.branch)), Field("index", Number(Int(p.index)))])
  }

  lemma FieldsAreKeyed(e: Event)
    ensures DistinctKeys(Fields(e)) && DistinctKeys(NormalFields(Fields(e)))
    ensures var ns := NormalFields(Fields(e));
            && Field("index", Number(Int(e.index))) in ns && Field("branch", Str(e.branch)) in ns
            && Field("kind", Str(e.kind)) in ns && Field("payload", Normal(e.payload)) in ns
            && (e.parent.Some? ==> Field("parent", Normal(ParentJson(e.parent.value))) in ns)
            && (e.parent.None? ==> forall f :: f in ns ==> f.key != "parent")
  {
    hide Normal;
    var fields, ns := Fields(e), NormalFields(Fields(e));
    NormalScalars(e);
    if e.parent.None? {
      assert fields == [Field("index", Number(Int(e.index))), Field("branch", Str(e.branch)),
               Field("kind", Str(e.kind)), Field("payload", e.payload)];
      assert ns[0].key == "index" && ns[1].key == "branch" && ns[2].key == "kind" && ns[3].key == "payload";
    } else {
      assert fields == [Field("index", Number(Int(e.index))), Field("branch", Str(e.branch)),
               Field("parent", ParentJson(e.parent.value)),
                        Field("kind", Str(e.kind)), Field("payload", e.payload)];
      assert ns[0].key == "index" && ns[1].key == "branch" && ns[2].key == "parent" && ns[3].key == "kind"
             && ns[4].key == "payload";
    }
  }

  lemma NormalScalars(e: Event)
    ensures Normal(Number(Int(e.index))) == Number(Int(e.index)) && Normal(Str(e.branch)) == Str(e.branch)
    ensures Normal(Str(e.kind)) == Str(e.kind)
  {
  }

  lemma SameKeySameField(xs: seq<Field>, ys: seq<Field>, x: Field, y: Field)
    requires multiset(xs) == multiset(ys) && DistinctKeys(ys) && x in xs && y in ys && x.key == y.key
    ensures x == y
  {
    assert x in multiset(ys);
    var i :| 0 <= i < |ys| && ys[i] == x;
    var j :| 0 <= j < |ys| && ys[j] == y;
  }

  lemma ParentFields(p: ParentRef)
    ensures var fields := ParentJson(p).fields;
            && NormalFields(fields) == fields && DistinctKeys(fields)
            && Field("branch", Str(p.branch)) in fields && Field("index", Number(Int(p.index))) in fields
  {
    var fields := ParentJson(p).fields;
    assert fields[0] == Field("branch", Str(p.branch)) && fields[1] == Field("index", Number(Int(p.index)));
    assert fields[0].key == "branch" && fields[1].key == "index";
  }

  lemma ParentIsDetermined(a: ParentRef, b: ParentRef)
    requires Normal(ParentJson(a)) == Normal(ParentJson(b))
    ensures a == b
  {
    var xs, ys := ParentJson(a).fields, ParentJson(b).fields;
    assert ParentJson(a) == Obj(xs) && ParentJson(b) == Obj(ys);
    hide *;
    ParentFields(a);
    ParentFields(b);
    KeyOrderIsIgnored(xs, ys);
    SameKeySameField(xs, ys, Field("branch", Str(a.branch)), Field("branch", Str(b.branch)));
    SameKeySameField(xs, ys, Field("index", Number(Int(a.index))), Field("index", Number(Int(b.index))));
  }

  /** The canonical text of an event determines the event, its payload up to its normal form. */
  lemma EventIsDetermined(a: Event, b: Event)
    requires WellFormed(a.payload) && WellFormed(b.payload)
    ensures Canonical(EventJson(a)) == Canonical(EventJson(b)) <==> NormalEvent(a) == NormalEvent(b)
  {
    EventIsWellFormed(a);
    EventIsWellFormed(b);
    CanonicalIsUnambiguous(EventJson(a), EventJson(b));
    FieldsAreKeyed(a);
    FieldsAreKeyed(b);
    KeyOrderIsIgnored(Fields(a), Fields(b));
    if NormalEvent(a) == NormalEvent(b) {
      SameNormalFields(a, b);
    }
    hide *;
    if Normal(EventJson(a)) == Normal(EventJson(b)) {
      FieldsMatch(a, b);
    }
  }

  lemma EventIsWellFormed(e: Event)
    requires WellFormed(e.payload)
    ensures WellFormed(EventJson(e)) && EventJson(e) == Obj(Fields(e))
  {
  }

  lemma SameNormalFields(a: Event, b: Event)
    requires NormalEvent(a) == NormalEvent(b)
    ensures NormalFields(Fields(a)) == NormalFields(Fields(b))
  {
    hide Normal;
  }

  lemma FieldsMatch(a: Event, b: Event)
    requires Normal(EventJson(a)) == Normal(EventJson(b))
    ensures NormalEvent(a) == NormalEvent(b)
  {
    FieldsAreKeyed(a);
    FieldsAreKeyed(b);
    KeyOrderIsIgnored(Fields(a), Fields(b));
    assert EventJson(a) == Obj(Fields(a)) && EventJson(b) == Obj(Fields(b));
    hide Normal, NormalFields, Fields, DistinctKeys;
    var xs, ys := NormalFields(Fields(a)), NormalFields(Fields(b));
    SameKeySameField(xs, ys, Field("index", Number(Int(a.index))), Field("index", Number(Int(b.index))));
    SameKeySameField(xs, ys, Field("branch", Str(a.branch)), Field("branch", Str(b.branch)));
    SameKeySameField(xs, ys, Field("kind", Str(a.kind)), Field("kind", Str(b.kind)));
    SameKeySameField(xs, ys, Field("payload", Normal(a.payload)), Field("payload", Normal(b.payload)));
    ParentsMatch(a.parent, b.parent, xs, ys);
  }

  lemma ParentsMatch(a: Option<ParentRef>, b: Option<ParentRef>, xs: seq<Field>, ys: seq<Field>)
    requires multiset(xs) == multiset(ys) && DistinctKeys(ys)
    requires a.Some? ==> Field("parent", Normal(ParentJson(a.value))) in xs
    requires b.Some? ==> Field("parent", Normal(ParentJson(b.value))) in ys
    requires (a.None? ==> forall f :: f in xs ==> f.key != "parent")
    requires (b.None? ==> forall f :: f in ys ==> f.key != "parent")
    ensures a == b
  {
    hide Normal;
    forall f ensures f in xs <==> f in ys {
      assert f in xs <==> f in multiset(xs);
      assert f in ys <==> f in multiset(ys);
    }
    if a.Some? && b.Some? {
      SameKeySameField(xs, ys, Field("parent", Normal(ParentJson(a.value))),
            Field("parent", Normal(ParentJson(b.value))));
      ParentIsDetermined(a.value, b.value);
    }
  }

  /** Two histories have the same state hash exactly when their canonical events agree, in the same order. */
  lemma StateHashDetermines(digest: string -> string, a: seq<Event>, b: seq<Event>)
    requires IsDigest(digest) && TellsApart(digest, Texts(a), Texts(b))
    requires (forall i :: 0 <= i < |a| ==> WellFormed(a[i].payload))
    requires (forall i :: 0 <= i < |b| ==> WellFormed(b[i].payload))
    ensures Chain(digest, Texts(a)) == Chain(digest, Texts(b)) <==> NormalEvents(a) == NormalEvents(b)
  {
    hide IsHex, IsDigest, Canonical, EventJson, WellFormed, Chain, TellsApart, NormalEvent;
    if NormalEvents(a) == NormalEvents(b) {
      assert |a| == |NormalEvents(a)| == |b|;
      forall i | 0 <= i < |a| ensures Texts(a)[i] == Texts(b)[i] {
        assert NormalEvents(a)[i] == NormalEvents(b)[i];
        EventIsDetermined(a[i], b[i]);
      }
      assert Texts(a) == Texts(b);
    }
    if Chain(digest, Texts(a)) == Chain(digest, Texts(b)) {
      forall e ensures Canonical(EventJson(e)) != [] && !IsHex(Canonical(EventJson(e))[0]) {
        EventTextStarts(e);
      }
      ChainDetermines(digest, Texts(a), Texts(b));
      assert |a| == |Texts(a)| == |b|;
      forall i | 0 <= i < |a| ensures NormalEvents(a)[i] == NormalEvents(b)[i] {
        assert Texts(a)[i] == Texts(b)[i];
        EventIsDetermined(a[i], b[i]);
      }
    }
  }

  // ---------------------------------------------------------------- replay

  datatype Summary = Summary(count: nat, hash: string)

  datatype ReplayError = Invalid(faults: seq<Fault>) | UnknownBranch(branch: string)

  /** Replay answers for known branches of valid logs only, with the length and hash of the lineage. */
  method Replay(events: seq<Event>, branch: string, digest: string -> string) returns (r: Result<Summary, ReplayError>)
    ensures r.Ok? <==> ValidLog(events) && Count(events, branch) > 0
    ensures r.Ok? ==>
            r.value == Summary(|Lineage(events, branch, None)|, Chain(digest, Texts(Lineage(events, branch, None))))
    ensures r.Err? ==> (r.error.UnknownBranch? <==> ValidLog(events))
  {
    hide ValidLog, Lineage, Chain;
    var errors := ValidateLog(events);
    if errors != [] { return Err(Invalid(errors)); }
    CountZero(events, branch);
    if First(events, branch) == |events| { return Err(UnknownBranch(branch)); }
    GuardNeverCuts(events, branch, None, {});
    var lineage := LineageUpTo(events, branch, None, {});
    var hash := StateHash(events, branch, digest);
    r := Ok(Summary(|lineage|, hash));
  }
}
