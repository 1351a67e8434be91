// The promise-tail lock of the episode store (packages/arc-agi-3-chatgpt/src/store.ts, `withLock`;
// the mutation queues of avo-loop.ts and official-factory.ts chain promises the same way). Each call
// takes a ticket; its steps are the points between awaits.
module PromiseLocks {
  import opened Collections
  import opened Wrappers

  datatype Phase = WaitingFor | Inside | Released

  /** `previous` is the tail the call found under its key, None when there was no entry. */
  datatype Ticket<K> = Ticket(key: K, previous: Option<nat>, phase: Phase)

  datatype Locks<K(==)> = Locks(tickets: seq<Ticket<K>>, tails: map<K, nat>) {

    /** A tail promise is resolved once its own call and everything before it has released. */
    predicate Resolved(t: int)
      requires forall i :: 0 <= i < |tickets| && tickets[i].previous.Some? ==> tickets[i].previous.value < i
      decreases if t < 0 then 0 else t
    {
      && 0 <= t < |tickets| && tickets[t].phase == Released
      && (tickets[t].previous.Some? ==> Resolved(tickets[t].previous.value))
    }

    /** Links point back to the nearest earlier ticket of the same key that was still there. */
    ghost predicate Linked() {
      forall i :: 0 <= i < |tickets| ==>
        match tickets[i].previous
        case Some(p) => p < i && tickets[p].key == tickets[i].key && NoneBetween(tickets[i].key, p, i)
        case None => AllReleasedBefore(tickets[i].key, i)
    }

    ghost predicate NoneBetween(k: K, p: int, i: int) {
      forall j :: p < j < i && 0 <= j < |tickets| ==> tickets[j].key != k
    }

    ghost predicate AllReleasedBefore(k: K, i: int) {
      forall j :: 0 <= j < i && j < |tickets| && tickets[j].key == k ==> tickets[j].phase == Released
    }

    /** Whoever is inside or done has only released tickets of its key before it. */
    ghost predicate InOrder() {
      forall i :: 0 <= i < |tickets| && tickets[i].phase != WaitingFor ==> AllReleasedBefore(tickets[i].key, i)
    }

    /** A key has an entry exactly while some call on it has not released, and then it is the last call. */
    ghost predicate TailsFit() {
      && (forall k :: k in tails ==>
            tails[k] < |tickets| && tickets[tails[k]].key == k && tickets[tails[k]].phase != Released)
      && (forall k :: k in tails ==> NoneBetween(k, tails[k], |tickets|))
      && (forall i :: 0 <= i < |tickets| && tickets[i].phase != Released ==> tickets[i].key in tails)
    }

    ghost predicate Valid() {
      Linked() && InOrder() && TailsFit()
    }

    function Arrive(k: K): Locks<K> {
      Locks(tickets + [Ticket(k, if k in tails then Some(tails[k]) else None, WaitingFor)], tails[k := |tickets|])
    }

    predicate MayEnter(t: int)
      requires forall i :: 0 <= i < |tickets| && tickets[i].previous.Some? ==> tickets[i].previous.value < i
    {
      && 0 <= t < |tickets| && tickets[t].phase == WaitingFor
      && (tickets[t].previous.Some? ==> Resolved(tickets[t].previous.value))
    }

    function Enter(t: nat): Locks<K>
      requires t < |tickets|
    {
      Locks(tickets[t := tickets[t].(phase := Inside)], tails)
    }

    function Leave(t: nat): Locks<K>
      requires t < |tickets|
    {
      var k := tickets[t].key;
      Locks(tickets[t := tickets[t].(phase := Released)], if k in tails && tails[k] == t then tails - {k} else tails)
    }

    lemma ArriveIsValid(k: K)
      requires Valid()
      ensures Arrive(k).Valid()
    {
      var after := Arrive(k);
      assert forall i :: 0 <= i < |tickets| ==> after.tickets[i] == tickets[i];
      var n := |tickets|;
      if k in tails {
        assert after.NoneBetween(k, tails[k], n);
      } else {
        assert after.AllReleasedBefore(k, n);
      }
      forall i | 0 <= i < |after.tickets| && after.tickets[i].phase != WaitingFor
        ensures after.AllReleasedBefore(after.tickets[i].key, i) {
        assert AllReleasedBefore(tickets[i].key, i);
      }
      forall i | 0 <= i < n
        ensures match after.tickets[i].previous
                case Some(p) => p < i && after.tickets[p].key == after.tickets[i].key
                    && after.NoneBetween(after.tickets[i].key, p, i)
                case None => after.AllReleasedBefore(after.tickets[i].key, i)
      {
        if tickets[i].previous.Some? {
          assert NoneBetween(tickets[i].key, tickets[i].previous.value, i);
        } else {
          assert AllReleasedBefore(tickets[i].key, i);
        }
      }
      forall j | j in after.tails && j != k ensures after.NoneBetween(j, after.tails[j], |after.tickets|) {
        assert NoneBetween(j, tails[j], |tickets|);
      }
    }

    /** A resolved tail has every earlier call of its key released. */
    lemma {:induction false} ResolvedMeansReleased(t: nat)
      requires Valid() && Resolved(t)
      ensures AllReleasedBefore(tickets[t].key, t + 1)
    {
      assert AllReleasedBefore(tickets[t].key, t);
    }

    /** Whoever may enter finds everything before it on its key released. */
    lemma MayEnterIsNext(t: nat)
      requires Valid() && MayEnter(t)
      ensures AllReleasedBefore(tickets[t].key, t)
    {
      match tickets[t].previous
      case Some(p) =>
        ResolvedMeansReleased(p);
        assert NoneBetween(tickets[t].key, p, t);
      case None =>
    }

    lemma EnterIsValid(t: nat)
      requires Valid() && MayEnter(t)
      ensures Enter(t).Valid()
    {
      MayEnterIsNext(t);
      PhaseChange(t, Inside, Enter(t));
    }

    lemma LeaveIsValid(t: nat)
      requires Valid() && t < |tickets| && tickets[t].phase == Inside
      ensures Leave(t).Valid()
    {
      assert AllReleasedBefore(tickets[t].key, t);
      PhaseChange(t, Released, Leave(t));
      LeaveKeepsTails(t);
    }

    /** Progress of one call keeps what is known of the calls before another. */
    lemma StillReleased(t: nat, phase: Phase, after: Locks<K>, k: K, i: int)
      requires t < |tickets| && after.tickets == tickets[t := tickets[t].(phase := phase)]
      requires tickets[t].phase != Released
      ensures AllReleasedBefore(k, i) ==> after.AllReleasedBefore(k, i)
    {
    }

    lemma StillNone(t: nat, phase: Phase, after: Locks<K>, k: K, p: int, i: int)
      requires t < |tickets| && after.tickets == tickets[t := tickets[t].(phase := phase)]
      ensures NoneBetween(k, p, i) ==> after.NoneBetween(k, p, i)
    {
    }

    lemma PhaseChange(t: nat, phase: Phase, after: Locks<K>)
      requires Valid() && t < |tickets| && after.tickets == tickets[t := tickets[t].(phase := phase)]
      requires tickets[t].phase != Released && phase != WaitingFor && AllReleasedBefore(tickets[t].key, t)
      ensures after.Linked() && after.InOrder()
      ensures phase != Released && after.tails == tails ==> after.TailsFit()
    {
      hide Locks.AllReleasedBefore, Locks.NoneBetween;
      forall i | 0 <= i < |after.tickets| && after.tickets[i].phase != WaitingFor
        ensures after.AllReleasedBefore(after.tickets[i].key, i) {
        StillReleased(t, phase, after, tickets[i].key, i);
      }
      forall i | 0 <= i < |after.tickets|
        ensures match after.tickets[i].previous
                case Some(p) => p < i && after.tickets[p].key == after.tickets[i].key
                    && after.NoneBetween(after.tickets[i].key, p, i)
                case None => after.AllReleasedBefore(after.tickets[i].key, i)
      {
        StillReleased(t, phase, after, tickets[i].key, i);
        if tickets[i].previous.Some? {
          StillNone(t, phase, after, tickets[i].key, tickets[i].previous.value, i);
        }
      }
      forall k | k in tails ensures after.NoneBetween(k, tails[k], |after.tickets|) {
        StillNone(t, phase, after, k, tails[k], |after.tickets|);
      }
    }

    /** The entry goes exactly when the last call of the key leaves. */
    lemma LeaveKeepsTails(t: nat)
      requires Valid() && t < |tickets| && tickets[t].phase == Inside
      ensures Leave(t).TailsFit()
    {
      var after, k := Leave(t), tickets[t].key;
      forall j | j in after.tails ensures after.NoneBetween(j, after.tails[j], |after.tickets|) {
        assert NoneBetween(j, tails[j], |tickets|);
      }
      if tails[k] == t {
        LastOfKey(t);
      }
    }

    /** When the tail of a key leaves, every other call of the key has released already. */
    lemma LastOfKey(t: nat)
      requires Valid() && t < |tickets| && tickets[t].phase == Inside && tickets[t].key in tails
      requires tails[tickets[t].key] == t
      ensures forall i :: 0 <= i < |tickets| && i != t && tickets[i].key == tickets[t].key ==>
              tickets[i].phase == Released
    {
      assert NoneBetween(tickets[t].key, t, |tickets|);
      assert AllReleasedBefore(tickets[t].key, t);
    }

    /** Bodies of one key never overlap. */
    lemma MutualExclusion(t: nat, u: nat)
      requires Valid() && t < |tickets| && u < |tickets|
      requires tickets[t].key == tickets[u].key && tickets[t].phase == Inside && tickets[u].phase == Inside
      ensures t == u
    {
      assert AllReleasedBefore(tickets[t].key, t) && AllReleasedBefore(tickets[u].key, u);
    }

    /** Bodies of one key run in arrival order: whoever is inside or done was preceded only by finished calls. */
    lemma FirstComeFirstServed(t: nat, u: nat)
      requires Valid() && t < u < |tickets| && tickets[t].key == tickets[u].key && tickets[u].phase != WaitingFor
      ensures tickets[t].phase == Released
    {
      assert AllReleasedBefore(tickets[u].key, u);
    }

    /** An idle key has no entry in the lock table, and a busy one has. */
    lemma IdleMeansNoEntry(k: K)
      requires Valid()
      ensures k !in tails <==> forall i :: 0 <= i < |tickets| && tickets[i].key == k ==> tickets[i].phase == Released
    {
    }

    /** The entry of a key is its last call. */
    lemma TailIsLast(t: nat)
      requires Valid() && t < |tickets| && tickets[t].phase != Released
      ensures tickets[t].key in tails && t <= tails[tickets[t].key]
    {
      assert NoneBetween(tickets[t].key, tails[tickets[t].key], |tickets|);
    }

    /** The lock cannot get stuck: the first call of a key that has not released is inside or may enter. */
    lemma FirstMayEnter(t: nat)
      requires Valid() && t < |tickets| && tickets[t].phase != Released && AllReleasedBefore(tickets[t].key, t)
      ensures tickets[t].phase == Inside || MayEnter(t)
    {
      if tickets[t].previous.Some? {
        EarlierIsResolved(tickets[t].previous.value);
      }
    }

    lemma {:induction false} EarlierIsResolved(p: nat)
      requires Valid() && p < |tickets| && AllReleasedBefore(tickets[p].key, p + 1)
      ensures Resolved(p)
      decreases p
    {
      if tickets[p].previous.Some? {
        EarlierIsResolved(tickets[p].previous.value);
      }
    }
  }

  function NoCalls<K>(): (locks: Locks<K>)
    ensures locks.Valid() && locks.tickets == []
  {
    Locks([], map[])
  }
}
