// The episode store (packages/arc-agi-3-chatgpt/src/store.ts): the idempotency ledger, episode capacity
// under the create and resume locks, and orderly closing. Every method is one step between two awaits,
// so a sequence of calls in any order is an interleaving.
module EpisodeStore {
  import opened Collections
  import opened PromiseLocks
  import opened Wrappers

  // ---------------------------------------------------------------- the idempotency ledger

  datatype Key = Key(principal: string, tool: string, name: string)

  datatype BodyState = Running | Succeeded(value: string) | Failed(nonRetryable: bool)

  /** `reported` says the caller that started the body has seen it settle. */
  datatype Body = Body(key: Key, digest: string, state: BodyState, reported: bool)

  datatype Entry = Entry(digest: string, body: nat)

  /** What a caller got: a refusal, or a body whose result it awaits. */
  datatype Admission = Refused(reason: string) | Awaits(body: nat, replayed: bool)

  const MIN_KEY: nat := 8
  const MAX_KEY: nat := 200

  predicate Retired(b: Body) {
    b.state == Failed(false) && b.reported
  }

  class Ledger {
    const limit: nat
    var entries: map<string, map<Key, Entry>>
    var bodies: seq<Body>
    var active: set<nat>
    var closing: bool
    // Controllers may be closed from here on.
    var draining: bool
    var cleared: bool

    function Lookup(k: Key): Option<Entry>
      reads this`entries
    {
      if k.principal in entries && k in entries[k.principal] then Some(entries[k.principal][k]) else None
    }

    /** How many keys a principal's ledger holds. */
    function Held(principal: string): nat
      reads this`entries
    {
      if principal in entries then |entries[principal]| else 0
    }

    /** An entry leads to a body with its key and digest that has not been retired. */
    ghost predicate EntriesFit()
      reads this`entries, this`bodies
    {
      forall k :: Lookup(k).Some? ==>
        var e := Lookup(k).value;
        && e.body < |bodies| && bodies[e.body].key == k && bodies[e.body].digest == e.digest
        && !Retired(bodies[e.body])
    }

    /** A body that has not been retired is the one its entry leads to. */
    ghost predicate BodiesFit()
      reads this`entries, this`bodies, this`cleared
    {
      !cleared ==> forall b :: 0 <= b < |bodies| && !Retired(bodies[b]) ==>
          Lookup(bodies[b].key) == Some(Entry(bodies[b].digest, b))
    }

    /** A later body of a key exists only because every earlier one failed retryably and was retired. */
    ghost predicate Succession()
      reads this`bodies
    {
      forall b, c :: 0 <= b < c < |bodies| && bodies[b].key == bodies[c].key ==> Retired(bodies[b])
    }

    ghost predicate Inv()
      reads this
    {
      && EntriesFit() && BodiesFit() && Succession()
      && (forall b :: 0 <= b < |bodies| && bodies[b].state == Running ==> b in active && !bodies[b].reported)
      && (forall p :: Held(p) <= limit)
      && (draining ==> closing && active == {})
      && (cleared ==> draining && entries == map[])
    }

    constructor (limit: nat)
      ensures Inv() && bodies == [] && !closing
    {
      this.limit := limit;
      entries, bodies, active, closing, draining, cleared := map[], [], {}, false, false, false;
    }

    /** A call joins the body its key leads to, starts one, or is refused. */
    method RunIdempotent(k: Key, digest: string) returns (a: Admission)
      requires Inv()
      modifies this`entries, this`bodies, this`active
      ensures Inv()
      ensures a.Awaits? <==> !closing && MIN_KEY <= |k.name| <= MAX_KEY
                             && match old(Lookup(k)) case Some(e) => e.digest
                                 == digest case None => old(Held(k.principal)) < limit
      ensures a.Awaits? ==> a.body < |bodies| && bodies[a.body].key == k && bodies[a.body].digest == digest
      ensures a.Refused? || a.replayed ==> bodies == old(bodies) && active == old(active)
      ensures a.Awaits? && !a.replayed ==>
              bodies == old(bodies) + [Body(k, digest, Running, false)] && a.body == |old(bodies)|
                  && old(Lookup(k)) == None
      ensures a.Awaits? && a.replayed ==> old(Lookup(k)) == Some(Entry(digest, a.body))
    {
      if closing { return Refused("episode store is closing"); }
      if |k.name| < MIN_KEY || |k.name| > MAX_KEY { return Refused("invalid idempotency key"); }
      OpenLedger(k.principal);
      var ledger := entries[k.principal];
      if k in ledger {
        if ledger[k].digest != digest { return Refused("idempotency key was already used with different input"); }
        assert Lookup(k) == Some(ledger[k]);
        return Awaits(ledger[k].body, true);
      }
      if |ledger| >= limit { return Refused("idempotency ledger limit reached"); }
      var b := StartBody(k, digest);
      a := Awaits(b, false);
    }

    /** A principal's ledger exists before its first entry; that changes no lookup. */
    method OpenLedger(principal: string)
      requires Inv() && !closing
      modifies this`entries
      ensures Inv() && principal in entries
      ensures forall x :: Lookup(x) == old(Lookup(x))
      ensures forall p :: Held(p) == old(Held(p))
    {
      if principal !in entries { entries := entries[principal := map[]]; }
      assert forall x :: Lookup(x) == old(Lookup(x));
      assert forall p :: Held(p) == old(Held(p));
    }

    method StartBody(k: Key, digest: string) returns (b: nat)
      requires Inv() && !closing && Lookup(k) == None && k.principal in entries && Held(k.principal) < limit
      modifies this`entries, this`bodies, this`active
      ensures Inv() && b == |old(bodies)| && bodies == old(bodies) + [Body(k, digest, Running, false)]
    {
      b := |bodies|;
      bodies := bodies + [Body(k, digest, Running, false)];
      active := active + {b};
      GrowsByOne(entries[k.principal], k, Entry(digest, b));
      entries := entries[k.principal := entries[k.principal][k := Entry(digest, b)]];
      assert forall p :: p != k.principal ==> Held(p) == old(Held(p));
      assert forall x :: Lookup(x) == if x == k then Some(Entry(digest, b)) else old(Lookup(x));
    }

    /** The body settles. */
    method Settle(b: nat, outcome: BodyState)
      requires Inv() && b < |bodies| && bodies[b].state == Running && outcome != Running
      modifies this`bodies
      ensures Inv() && bodies == old(bodies)[b := old(bodies)[b].(state := outcome)]
    {
      bodies := bodies[b := bodies[b].(state := outcome)];
    }

    /** The store stops counting a settled body as active. */
    method Forget(b: nat)
      requires Inv() && b < |bodies| && bodies[b].state != Running
      modifies this`active
      ensures Inv() && active == old(active) - {b}
    {
      active := active - {b};
    }

    /** The starting caller resumes: a retryable failure frees the key for another attempt. */
    method Report(b: nat)
      requires Inv() && b < |bodies| && bodies[b].state != Running && !bodies[b].reported
      modifies this`bodies, this`entries
      ensures Inv() && bodies == old(bodies)[b := old(bodies)[b].(reported := true)]
      ensures Lookup(bodies[b].key) == if bodies[b].state == Failed(false) then None else old(Lookup(bodies[b].key))
    {
      var k := bodies[b].key;
      var free := bodies[b].state == Failed(false);
      bodies := bodies[b := bodies[b].(reported := true)];
      if free && k.principal in entries {
        ShrinksByOne(entries[k.principal], k);
        entries := entries[k.principal := entries[k.principal] - {k}];
      }
      assert forall x :: Lookup(x) == if free && x == k then None else old(Lookup(x));
      assert forall p :: Held(p) <= old(Held(p));
    }

    method RequestClose()
      requires Inv()
      modifies this`closing
      ensures Inv() && closing
    {
      closing := true;
    }

    /** Closing proceeds to the controllers only when no idempotent body is active. */
    method Drain() returns (ok: bool)
      requires Inv() && closing
      modifies this`draining
      ensures Inv() && (ok <==> active == {}) && draining == (old(draining) || ok)
    {
      ok := active == {};
      if ok { draining := true; }
    }

    method Clear()
      requires Inv() && draining
      modifies this`entries, this`cleared
      ensures Inv() && entries == map[]
    {
      entries, cleared := map[], true;
    }

    // -------------------------------------------------------------- what the ledger guarantees

    /** Bodies of one key never overlap. */
    lemma BodiesNeverOverlap(b: nat, c: nat)
      requires Inv() && b < |bodies| && c < |bodies| && bodies[b].key == bodies[c].key
      requires bodies[b].state == Running && bodies[c].state == Running
      ensures b == c
    {
    }

    /** At most one body of a key ever succeeds, so all its successful callers get one value for one input. */
    lemma OneSuccess(b: nat, c: nat)
      requires Inv() && b < |bodies| && c < |bodies| && bodies[b].key == bodies[c].key
      requires bodies[b].state.Succeeded? && bodies[c].state.Succeeded?
      ensures b == c
    {
    }

    /** After a success or a non-retryable failure no body of that key is started again. */
    lemma Final(b: nat, c: nat)
      requires Inv() && b < |bodies| && c < |bodies| && bodies[b].key == bodies[c].key
      requires bodies[b].state.Succeeded? || bodies[b].state == Failed(true)
      ensures c <= b
    {
    }

    /** While controllers are being closed no admitted body is running. */
    lemma ControllersCloseLast(b: nat)
      requires Inv() && draining && b < |bodies|
      ensures bodies[b].state != Running
    {
    }
  }

  // ---------------------------------------------------------------- episodes under the two locks

  datatype Stage = AwaitResume | Replacing | AwaitCreate | Building | Done

  /** One `create` or `resumePersisted` call; a create has no episode yet and no resume ticket. */
  datatype Task = Task(principal: string, episode: Option<string>, resumeTicket: Option<nat>, createTicket: Option<nat>,
        stage: Stage)

  /** A task holds exactly the tickets its stage says it holds. */
  ghost predicate Fits(create: Locks<string>, resume: Locks<(string, string)>, t: Task) {
    && (t.resumeTicket.Some? <==> t.episode.Some?)
    && (t.resumeTicket.Some? ==>
          && t.resumeTicket.value < |resume.tickets|
          && resume.tickets[t.resumeTicket.value].key == (t.principal, t.episode.value)
          && resume.tickets[t.resumeTicket.value].phase
              == (match t.stage case AwaitResume => WaitingFor case Done => Released case _ => Inside))
    && (t.createTicket.Some? ==>
          && t.createTicket.value < |create.tickets|
          && create.tickets[t.createTicket.value].key == t.principal
          && create.tickets[t.createTicket.value].phase
              == (match t.stage case AwaitCreate => WaitingFor case Done => Released case _ => Inside))
    && (t.stage in {AwaitResume, Replacing} ==> t.resumeTicket.Some? && t.createTicket.None?)
    && (t.stage in {AwaitCreate, Building} ==> t.createTicket.Some?)
  }

  /** The two calls hold different tickets. */
  predicate Apart(t: Task, u: Task) {
    && (t.createTicket.Some? ==> t.createTicket != u.createTicket)
    && (t.resumeTicket.Some? ==> t.resumeTicket != u.resumeTicket)
  }

  lemma ApartStays(t: Task, stage: Stage)
    ensures forall u :: Apart(t, u) == Apart(t.(stage := stage), u) && Apart(u, t) == Apart(u, t.(stage := stage))
  {
  }

  lemma TicketsInRange(create: Locks<string>, resume: Locks<(string, string)>, t: Task)
    requires Fits(create, resume, t)
    ensures t.createTicket.Some? ==> t.createTicket.value < |create.tickets|
    ensures t.resumeTicket.Some? ==> t.resumeTicket.value < |resume.tickets|
  {
  }

  function LeftCreate(create: Locks<string>, t: Task): Locks<string>
    requires t.createTicket.Some? ==> t.createTicket.value < |create.tickets|
  {
    if t.createTicket.Some? then create.Leave(t.createTicket.value) else create
  }

  function LeftResume(resume: Locks<(string, string)>, t: Task): Locks<(string, string)>
    requires t.resumeTicket.Some? ==> t.resumeTicket.value < |resume.tickets|
  {
    if t.resumeTicket.Some? then resume.Leave(t.resumeTicket.value) else resume
  }

  ghost predicate SameKeys<K>(a: Locks<K>, b: Locks<K>) {
    |a.tickets| == |b.tickets| && forall i :: 0 <= i < |a.tickets| ==> b.tickets[i].key == a.tickets[i].key
  }

  /** A call that leaves is done, and nobody else's tickets move. */
  lemma LeavingFits(create: Locks<string>, resume: Locks<(string, string)>, t: Task)
    requires Fits(create, resume, t) && t.stage in {Replacing, Building} && create.Valid() && resume.Valid()
    ensures LeftCreate(create, t).Valid() && LeftResume(resume, t).Valid()
    ensures Fits(LeftCreate(create, t), LeftResume(resume, t), t.(stage := Done))
    ensures forall u: Task :: Fits(create, resume, u) && Apart(t, u) ==>
            Fits(LeftCreate(create, t), LeftResume(resume, t), u)
    ensures SameKeys(create, LeftCreate(create, t)) && SameKeys(resume, LeftResume(resume, t))
  {
    hide Locks.Valid;
    if t.createTicket.Some? { create.LeaveIsValid(t.createTicket.value); }
    if t.resumeTicket.Some? { resume.LeaveIsValid(t.resumeTicket.value); }
  }

  /** One episode of one principal has this controller now; all others keep theirs. */
  ghost function Installed(live: map<string, map<string, nat>>, principal: string, episode: string,
      controller: nat): map<string, map<string, nat>>
  {
    var own: map<string, nat> := if principal in live then live[principal] else map[];
    var now: map<string, nat> := own[episode := controller];
    live[principal := now]
  }

  class Episodes {
    const limit: nat
    var live: map<string, map<string, nat>>
    var createLocks: Locks<string>
    var resumeLocks: Locks<(string, string)>
    var tasks: seq<Task>
    var closing: bool
    // The lock tails that closing waits for, taken when it began.
    var drainCreate: map<string, nat>
    var drainResume: map<(string, string), nat>

    /** How many live episodes a principal holds. */
    ghost function Size(principal: string): nat
      reads this`live
    {
      if principal in live then |live[principal]| else 0
    }

    ghost predicate Live(principal: string, episode: string)
      reads this`live
    {
      principal in live && episode in live[principal]
    }

    ghost predicate TaskFits(t: Task)
      reads this`createLocks, this`resumeLocks
    {
      Fits(createLocks, resumeLocks, t)
    }

    ghost predicate TicketsDiffer()
      reads this`tasks
    {
      forall i, j :: 0 <= i < |tasks| && 0 <= j < |tasks| && i != j ==> Apart(tasks[i], tasks[j])
    }

    /** A call that has passed the capacity test still finds room, and one that replaces still finds its episode. */
    ghost predicate RoomKept()
      reads this`live, this`tasks
    {
      forall i :: 0 <= i < |tasks| ==>
        && (tasks[i].stage == Building ==> Size(tasks[i].principal) < limit)
        && (tasks[i].stage == Replacing ==> tasks[i].episode.Some? && Live(tasks[i].principal, tasks[i].episode.value))
    }

    /** A call still under way is queued no later than a tail that closing waits for. */
    ghost predicate Drains(t: Task)
      reads this`drainCreate, this`drainResume
    {
      t.stage != Done ==>
        match t.resumeTicket
        case Some(r) =>
          && t.episode.Some? && (t.principal, t.episode.value) in drainResume
          && r <= drainResume[(t.principal, t.episode.value)]
        case None =>
          && t.createTicket.Some? && t.principal in drainCreate
          && t.createTicket.value <= drainCreate[t.principal]
    }

    /** The tails that closing waits for are those of their keys. */
    ghost predicate TailsKnown()
      reads this`createLocks, this`resumeLocks, this`drainCreate, this`drainResume
    {
      && (forall k :: k in drainCreate ==>
            drainCreate[k] < |createLocks.tickets| && createLocks.tickets[drainCreate[k]].key == k)
      && (forall k :: k in drainResume ==>
            drainResume[k] < |resumeLocks.tickets| && resumeLocks.tickets[drainResume[k]].key == k)
    }

    ghost predicate Draining()
      reads this`tasks, this`closing, this`drainCreate, this`drainResume, this`createLocks, this`resumeLocks
    {
      closing ==> TailsKnown() && forall i :: 0 <= i < |tasks| ==> Drains(tasks[i])
    }

    lemma DrainsOn(t: Task, stage: Stage)
      ensures t.stage != Done && Drains(t) ==> Drains(t.(stage := stage))
      ensures t.stage != Done && Drains(t) && t.resumeTicket.Some? ==>
              forall c :: Drains(t.(createTicket := c, stage := stage))
    {
    }

    ghost predicate Inv()
      reads this
    {
      && createLocks.Valid() && resumeLocks.Valid() && Draining()
      && (forall i :: 0 <= i < |tasks| ==> TaskFits(tasks[i]))
      && TicketsDiffer() && RoomKept()
      && (forall p :: Size(p) <= limit)
    }

    constructor (limit: nat)
      ensures Inv() && tasks == [] && live == map[]
    {
      this.limit := limit;
      live, createLocks, resumeLocks, tasks, closing := map[], NoCalls(), NoCalls(), [], false;
      drainCreate, drainResume := map[], map[];
    }

    /** Two calls of one principal are never both between the capacity test and the installation. */
    lemma OneBuilder(i: nat, j: nat)
      requires Inv() && i < |tasks| && j < |tasks| && tasks[i].stage == Building && tasks[j].stage == Building
      requires tasks[i].principal == tasks[j].principal
      ensures i == j
    {
      hide Locks.Valid;
      assert TaskFits(tasks[i]) && TaskFits(tasks[j]);
      createLocks.MutualExclusion(tasks[i].createTicket.value, tasks[j].createTicket.value);
    }

    /** Two resumes of one episode never overlap. */
    lemma OneResumer(i: nat, j: nat)
      requires Inv() && i < |tasks| && j < |tasks| && tasks[i].episode.Some? && tasks[i].episode == tasks[j].episode
      requires tasks[i].principal == tasks[j].principal
      requires tasks[i].stage !in {AwaitResume, Done} && tasks[j].stage !in {AwaitResume, Done}
      ensures i == j
    {
      hide Locks.Valid;
      assert TaskFits(tasks[i]) && TaskFits(tasks[j]);
      resumeLocks.MutualExclusion(tasks[i].resumeTicket.value, tasks[j].resumeTicket.value);
    }

    method Create(principal: string) returns (ok: bool)
      requires Inv()
      modifies this`createLocks, this`tasks
      ensures Inv() && (ok <==> !closing)
      ensures tasks == if ok then old(tasks)
              + [Task(principal, None, None, Some(|old(createLocks.tickets)|), AwaitCreate)] else old(tasks)
    {
      hide Locks.Valid, Episodes.Drains;
      if closing { return false; }
      createLocks.ArriveIsValid(principal);
      var t := Task(principal, None, None, Some(|createLocks.tickets|), AwaitCreate);
      createLocks := createLocks.Arrive(principal);
      tasks := tasks + [t];
      ok := true;
    }

    method Resume(principal: string, episode: string) returns (ok: bool)
      requires Inv()
      modifies this`resumeLocks, this`tasks
      ensures Inv() && (ok <==> !closing)
      ensures tasks == if ok then old(tasks)
              + [Task(principal, Some(episode), Some(|old(resumeLocks.tickets)|), None, AwaitResume)] else old(tasks)
    {
      hide Locks.Valid, Episodes.Drains;
      if closing { return false; }
      resumeLocks.ArriveIsValid((principal, episode));
      var t := Task(principal, Some(episode), Some(|resumeLocks.tickets|), None, AwaitResume);
      resumeLocks := resumeLocks.Arrive((principal, episode));
      tasks := tasks + [t];
      ok := true;
    }

    /** The resume lock is granted: a live episode is returned or replaced, a missing one waits for the create lock. */
    method EnterResume(i: nat, matching: bool)
      requires Inv() && i < |tasks| && tasks[i].stage == AwaitResume
      requires resumeLocks.MayEnter(tasks[i].resumeTicket.value)
      modifies this`resumeLocks, this`createLocks, this`tasks
      ensures Inv() && |tasks| == |old(tasks)| && forall j :: 0 <= j < |tasks| && j != i ==> tasks[j] == old(tasks)[j]
      ensures tasks[i].stage == if closing || (old(LiveFor(i)) && matching) then Done else if old(LiveFor(i))
              then Replacing else AwaitCreate
    {
      hide Locks.Valid, Locks.MayEnter;
      var t := tasks[i];
      var r := t.resumeTicket.value;
      EnterResumeLock(i);
      var found := t.principal in live && t.episode.value in live[t.principal];
      if closing || (found && matching) {
        LeaveBoth(i);
      } else if !found {
        QueueForCreate(i);
      }
    }

    method QueueForCreate(i: nat)
      requires createLocks.Valid() && resumeLocks.Valid() && Draining() && TicketsDiffer() && forall p ::
               Size(p) <= limit
      requires i < |tasks| && tasks[i].stage == Replacing
      requires forall j :: 0 <= j < |tasks| ==> TaskFits(tasks[j])
      requires forall j :: 0 <= j < |tasks| && j != i && tasks[j].stage == Building ==> Size(tasks[j].principal) < limit
      requires forall j :: 0 <= j < |tasks| && j != i && tasks[j].stage == Replacing ==>
               tasks[j].episode.Some? && Live(tasks[j].principal, tasks[j].episode.value)
      modifies this`createLocks, this`tasks
      ensures Inv()
      ensures tasks == old(tasks)[i :=
                old(tasks)[i].(createTicket := Some(|old(createLocks.tickets)|), stage := AwaitCreate)]
    {
      hide Locks.Valid, Live, Episodes.Drains;
      DrainsOn(tasks[i], AwaitCreate);
      var t, ticket := tasks[i], |createLocks.tickets|;
      assert TaskFits(t);
      forall j | 0 <= j < |tasks| ensures tasks[j].createTicket != Some(ticket) {
        assert TaskFits(tasks[j]);
      }
      createLocks.ArriveIsValid(t.principal);
      createLocks := createLocks.Arrive(t.principal);
      tasks := tasks[i := t.(createTicket := Some(ticket), stage := AwaitCreate)];
    }

    ghost function LiveFor(i: nat): bool
      requires i < |tasks|
      reads this`live, this`tasks
    {
      tasks[i].episode.Some? && Live(tasks[i].principal, tasks[i].episode.value)
    }

    method EnterResumeLock(i: nat)
      requires Inv() && i < |tasks| && tasks[i].stage == AwaitResume
      requires resumeLocks.MayEnter(tasks[i].resumeTicket.value)
      modifies this`resumeLocks, this`tasks
      ensures createLocks.Valid() && resumeLocks.Valid() && Draining() && TicketsDiffer() && forall p ::
              Size(p) <= limit
      ensures tasks == old(tasks)[i := old(tasks)[i].(stage := Replacing)]
      ensures forall j :: 0 <= j < |tasks| ==> TaskFits(tasks[j])
      ensures forall j :: 0 <= j < |tasks| && tasks[j].stage == Building ==> Size(tasks[j].principal) < limit
      ensures forall j :: 0 <= j < |tasks| && j != i && tasks[j].stage == Replacing ==>
              tasks[j].episode.Some? && Live(tasks[j].principal, tasks[j].episode.value)
    {
      hide Locks.Valid, Locks.MayEnter, Live, Episodes.Drains;
      assert TaskFits(tasks[i]);
      DrainsOn(tasks[i], Replacing);
      resumeLocks.EnterIsValid(tasks[i].resumeTicket.value);
      resumeLocks := resumeLocks.Enter(tasks[i].resumeTicket.value);
      tasks := tasks[i := tasks[i].(stage := Replacing)];
    }

    /** A call leaves, releasing the create lock before the resume lock around it. */
    method LeaveBoth(i: nat)
      requires createLocks.Valid() && resumeLocks.Valid() && Draining() && TicketsDiffer() && forall p ::
               Size(p) <= limit
      requires i < |tasks| && tasks[i].stage in {Replacing, Building}
      requires forall j :: 0 <= j < |tasks| ==> TaskFits(tasks[j])
      requires forall j :: 0 <= j < |tasks| && j != i && tasks[j].stage == Building ==> Size(tasks[j].principal) < limit
      requires forall j :: 0 <= j < |tasks| && j != i && tasks[j].stage == Replacing ==>
               tasks[j].episode.Some? && Live(tasks[j].principal, tasks[j].episode.value)
      modifies this`resumeLocks, this`createLocks, this`tasks
      ensures Inv() && tasks == old(tasks)[i := old(tasks)[i].(stage := Done)]
    {
      hide Locks.Valid, Live, Episodes.Drains, Fits, LeftCreate, LeftResume, Apart;
      var t := tasks[i];
      assert TaskFits(t);
      TicketsInRange(createLocks, resumeLocks, t);
      DrainsOn(t, Done);
      LeavingFits(createLocks, resumeLocks, t);
      ApartStays(t, Done);
      createLocks, resumeLocks, tasks :=
          LeftCreate(createLocks, t), LeftResume(resumeLocks, t), tasks[i := t.(stage := Done)];
    }

    /** The create lock is granted: the capacity test decides whether the call goes on to build a controller. */
    method EnterCreate(i: nat)
      requires Inv() && i < |tasks| && tasks[i].stage == AwaitCreate
      requires createLocks.MayEnter(tasks[i].createTicket.value)
      modifies this`resumeLocks, this`createLocks, this`tasks
      ensures Inv() && |tasks| == |old(tasks)| && forall j :: 0 <= j < |tasks| && j != i ==> tasks[j] == old(tasks)[j]
      ensures tasks[i].stage == if closing || old(LiveFor(i)) || Size(tasks[i].principal) >= limit then Done
              else Building
    {
      hide Locks.Valid, Locks.MayEnter, Episodes.Drains, Episodes.TaskFits;
      EnterCreateLock(i);
      var t := tasks[i];
      var held := if t.principal in live then |live[t.principal]| else 0;
      var found := t.episode.Some? && t.principal in live && t.episode.value in live[t.principal];
      if closing || found || held >= limit {
        LeaveBoth(i);
      }
    }

    method EnterCreateLock(i: nat)
      requires Inv() && i < |tasks| && tasks[i].stage == AwaitCreate
      requires createLocks.MayEnter(tasks[i].createTicket.value)
      modifies this`createLocks, this`tasks
      ensures createLocks.Valid() && resumeLocks.Valid() && Draining() && TicketsDiffer() && forall p ::
              Size(p) <= limit
      ensures tasks == old(tasks)[i := old(tasks)[i].(stage := Building)]
      ensures forall j :: 0 <= j < |tasks| ==> TaskFits(tasks[j])
      ensures forall j :: 0 <= j < |tasks| && j != i && tasks[j].stage == Building ==> Size(tasks[j].principal) < limit
      ensures forall j :: 0 <= j < |tasks| && tasks[j].stage == Replacing ==>
              tasks[j].episode.Some? && Live(tasks[j].principal, tasks[j].episode.value)
    {
      hide Locks.Valid, Locks.MayEnter, Live, Episodes.Drains;
      assert TaskFits(tasks[i]);
      DrainsOn(tasks[i], Building);
      createLocks.EnterIsValid(tasks[i].createTicket.value);
      createLocks := createLocks.Enter(tasks[i].createTicket.value);
      tasks := tasks[i := tasks[i].(stage := Building)];
    }

    /** The replacement is installed, once, in the place of the controller it replaces. */
    method FinishReplace(i: nat, resumed: bool, controller: nat)
      requires Inv() && i < |tasks| && tasks[i].stage == Replacing
      modifies this`live, this`resumeLocks, this`createLocks, this`tasks
      ensures Inv() && tasks == old(tasks)[i := old(tasks)[i].(stage := Done)]
      ensures forall p :: Size(p) == old(Size(p))
      ensures forall p, e :: Live(p, e) <==> old(Live(p, e))
      ensures !resumed ==> live == old(live)
      ensures resumed ==>
              var p, e := tasks[i].principal, tasks[i].episode;
              e.Some? && p in old(live) && live == Installed(old(live), p, e.value, controller)
    {
      hide Locks.Valid;
      var t := tasks[i];
      assert TaskFits(t);
      if resumed {
        assert Live(t.principal, t.episode.value);
        var own: map<string, nat> := live[t.principal];
        var replaced: map<string, nat> := own[t.episode.value := controller];
        live := live[t.principal := replaced];
        assert replaced.Keys == own.Keys;
        SameKeysSameSize(own, replaced);
        assert forall p :: Size(p) == old(Size(p));
      }
      LeaveBoth(i);
    }

    /** A built episode takes the room its capacity test found. */
    method FinishBuild(i: nat, built: bool, newEpisode: string, controller: nat)
      requires Inv() && i < |tasks| && tasks[i].stage == Building
      modifies this`live, this`resumeLocks, this`createLocks, this`tasks
      ensures Inv() && tasks == old(tasks)[i := old(tasks)[i].(stage := Done)]
      ensures !built ==> live == old(live)
      ensures built ==>
              var p, e := tasks[i].principal, tasks[i].episode.GetOr(newEpisode);
              live == Installed(old(live), p, e, controller)
      ensures forall p :: p != tasks[i].principal ==> Size(p) == old(Size(p))
      ensures old(Size(tasks[i].principal)) <= Size(tasks[i].principal) <= old(Size(tasks[i].principal)) + 1
    {
      hide Locks.Valid;
      var t := tasks[i];
      OthersAreNotBuilding(i);
      if built {
        var e := t.episode.GetOr(newEpisode);
        var own: map<string, nat> := if t.principal in live then live[t.principal] else map[];
        var grown: map<string, nat> := own[e := controller];
        GrowsByOne(own, e, controller);
        live := live[t.principal := grown];
        assert forall p :: Size(p) == if p == t.principal then |grown| else old(Size(p));
      }
      LeaveBoth(i);
    }

    /** Closing begins: no later call is admitted, and the tails of both lock tables are taken. */
    method RequestClose()
      requires Inv() && !closing
      modifies this`closing, this`drainCreate, this`drainResume
      ensures Inv() && closing && drainCreate == createLocks.tails && drainResume == resumeLocks.tails
    {
      hide Locks.Linked, Locks.InOrder, Live;
      closing, drainCreate, drainResume := true, createLocks.tails, resumeLocks.tails;
      forall i | 0 <= i < |tasks| && tasks[i].stage != Done ensures Drains(tasks[i]) {
        assert TaskFits(tasks[i]);
        if tasks[i].resumeTicket.Some? {
          resumeLocks.TailIsLast(tasks[i].resumeTicket.value);
        } else {
          createLocks.TailIsLast(tasks[i].createTicket.value);
        }
      }
    }

    /** The tails that closing waits for have resolved. */
    ghost predicate Drained()
      requires createLocks.Valid() && resumeLocks.Valid()
      reads this`createLocks, this`resumeLocks, this`drainCreate, this`drainResume
    {
      && (forall k :: k in drainCreate ==> createLocks.Resolved(drainCreate[k]))
      && (forall k :: k in drainResume ==> resumeLocks.Resolved(drainResume[k]))
    }

    /** Once the tails that closing waits for have resolved, no create or resume is under way. */
    lemma DrainedMeansDone(i: nat)
      requires Inv() && closing && i < |tasks| && Drained()
      ensures tasks[i].stage == Done
    {
      hide Locks.Valid, Locks.Resolved, Live;
      assert TaskFits(tasks[i]);
      if tasks[i].stage != Done {
        if tasks[i].resumeTicket.Some? {
          resumeLocks.ResolvedMeansReleased(drainResume[(tasks[i].principal, tasks[i].episode.value)]);
        } else {
          createLocks.ResolvedMeansReleased(drainCreate[tasks[i].principal]);
        }
      }
    }

    lemma OthersAreNotBuilding(i: nat)
      requires Inv() && i < |tasks| && tasks[i].stage == Building
      ensures forall j :: 0 <= j < |tasks| && j != i && tasks[j].stage == Building ==>
              tasks[j].principal != tasks[i].principal
    {
      hide Locks.Valid;
      forall j | 0 <= j < |tasks| && j != i && tasks[j].stage == Building
        ensures tasks[j].principal != tasks[i].principal {
        if tasks[j].principal == tasks[i].principal {
          OneBuilder(i, j);
        }
      }
    }
  }

  /** Closing gets to the controllers with no create, no resume and no idempotent body under way. */
  lemma NothingUnderWay(ledger: Ledger, episodes: Episodes)
    requires ledger.Inv() && ledger.draining && episodes.Inv() && episodes.closing && episodes.Drained()
    ensures forall b :: 0 <= b < |ledger.bodies| ==> ledger.bodies[b].state != Running
    ensures forall i :: 0 <= i < |episodes.tasks| ==> episodes.tasks[i].stage == Done
  {
    hide Episodes.Inv, Episodes.Drained;
    forall i | 0 <= i < |episodes.tasks| ensures episodes.tasks[i].stage == Done {
      episodes.DrainedMeansDone(i);
    }
  }

  lemma SameKeysSameSize<K, V>(a: map<K, V>, b: map<K, V>)
    requires a.Keys == b.Keys
    ensures |a| == |b|
  {
    assert |a| == |a.Keys| && |b| == |b.Keys|;
  }

  lemma ShrinksByOne<K, V>(m: map<K, V>, k: K)
    ensures |m - {k}| <= |m|
  {
    var n := m - {k};
    assert |m| == |m.Keys| && |n| == |n.Keys|;
    assert n.Keys == m.Keys - {k};
  }

  lemma GrowsByOne<K, V>(m: map<K, V>, k: K, v: V)
    ensures |m| <= |m[k := v]| <= |m| + 1
  {
    var n := m[k := v];
    assert |m| == |m.Keys| && |n| == |n.Keys|;
    assert n.Keys == m.Keys + {k};
  }
}
