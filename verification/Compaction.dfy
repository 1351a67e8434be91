// Compacting checkpoint evidence (packages/arc-agi-3/src/checkpoint.ts): every exact frame is stored
// once, content-addressed, and receipts and idempotency results are rebuilt from the blobs.
module Compaction {
  import opened Collections
  import opened Wrappers

  datatype Frame = Frame(ref: string, cells: string)

  /** The hash of a frame as a free term. */
  datatype BlobHash = HashOf(frame: Frame) | ForeignHash(text: string)

  datatype Receipt = Receipt(hash: string, frames: seq<Frame>, rest: string)

  datatype Observation = Observation(frames: seq<Frame>, current: Frame, rest: string)

  datatype ActResult = ActResult(observation: Observation, receipt: Receipt, replayed: bool)

  datatype Stored = Stored(key: string, request: string, result: ActResult)

  datatype CompactReceipt = CompactReceipt(hash: string, frames: seq<BlobHash>, rest: string)

  datatype CompactObservation = CompactObservation(frames: seq<BlobHash>, current: BlobHash, rest: string)

  datatype CompactStored = CompactStored(key: string, request: string, receipt: string, observation: CompactObservation)

  datatype Blob = Blob(hash: BlobHash, frame: Frame)

  type Blobs = OrderedMap<BlobHash, Frame>

  datatype Evidence = Evidence(receipts: seq<CompactReceipt>, idempotency: seq<CompactStored>, blobs: seq<Blob>)

  // ---------------------------------------------------------------- compacting

  /** Every blob is filed under the hash of its frame. */
  ghost predicate Addressed(blobs: Blobs) {
    blobs.Valid() && forall h :: h in blobs.at ==> h == HashOf(blobs.at[h])
  }

  function HashesOf(frames: seq<Frame>): (hs: seq<BlobHash>)
    ensures |hs| == |frames|
  {
    seq(|frames|, i requires 0 <= i < |frames| => HashOf(frames[i]))
  }

  function FrameSet(frames: seq<Frame>): set<BlobHash> {
    set f | f in frames :: HashOf(f)
  }

  function ReceiptFrames(receipts: seq<Receipt>): set<BlobHash> {
    set i, f | 0 <= i < |receipts| && f in receipts[i].frames :: HashOf(f)
  }

  function ResultFrames(stored: seq<Stored>): set<BlobHash> {
    set i, f | 0 <= i < |stored| && f in stored[i].result.observation.frames + [stored[i].result.observation.current] ::
        HashOf(f)
  }

  method AddFrame(frame: Frame, blobs: Blobs) returns (hash: BlobHash, all: Blobs)
    requires Addressed(blobs)
    ensures Addressed(all) && hash == HashOf(frame) && all.at.Keys == blobs.at.Keys + {hash}
  {
    hash, all := HashOf(frame), blobs;
    if hash !in blobs.at {
      ghost var i := blobs.SetValues(hash, frame);
      all := blobs.Set(hash, frame);
    }
  }

  method AddFrames(frames: seq<Frame>, blobs: Blobs) returns (hashes: seq<BlobHash>, all: Blobs)
    requires Addressed(blobs)
    ensures Addressed(all) && hashes == HashesOf(frames) && all.at.Keys == blobs.at.Keys + FrameSet(frames)
  {
    hide OrderedMap.Valid;
    hashes, all := [], blobs;
    for i := 0 to |frames|
      invariant Addressed(all) && hashes == HashesOf(frames)[..i]
      invariant all.at.Keys == blobs.at.Keys + FrameSet(frames[..i])
    {
      var h;
      h, all := AddFrame(frames[i], all);
      hashes := hashes + [h];
      assert frames[..i + 1] == frames[..i] + [frames[i]];
      assert FrameSet(frames[..i + 1]) == FrameSet(frames[..i]) + {h};
    }
    assert frames[..|frames|] == frames;
  }

  function CompactedReceipt(r: Receipt): CompactReceipt {
    CompactReceipt(r.hash, HashesOf(r.frames), r.rest)
  }

  function CompactedStored(s: Stored): CompactStored {
    var o := s.result.observation;
    CompactStored(s.key, s.request, s.result.receipt.hash,
          CompactObservation(HashesOf(o.frames), HashOf(o.current), o.rest))
  }

  function ListBlobs(blobs: Blobs): (bs: seq<Blob>)
    requires blobs.Valid()
    ensures |bs| == |blobs.keys|
  {
    seq(|blobs.keys|, i requires 0
          <= i < |blobs.keys| => assert blobs.keys[i] in Elements(blobs.keys); Blob(blobs.keys[i],
                blobs.at[blobs.keys[i]]))
  }

  /** Every frame of the receipts and results is stored, once, and nothing else. */
  ghost predicate ExactlyBlobs(blobs: seq<Blob>, hashes: set<BlobHash>) {
    && (forall i, j :: 0 <= i < j < |blobs| ==> blobs[i].hash != blobs[j].hash)
    && (forall i :: 0 <= i < |blobs| ==> blobs[i].hash == HashOf(blobs[i].frame))
    && (set i | 0 <= i < |blobs| :: blobs[i].hash) == hashes
  }

  ghost predicate IsCompacted(e: Evidence, receipts: seq<Receipt>, stored: seq<Stored>) {
    && |e.receipts| == |receipts|
        && (forall i :: 0 <= i < |receipts| ==> e.receipts[i] == CompactedReceipt(receipts[i]))
    && |e.idempotency| == |stored| && (forall i :: 0 <= i < |stored| ==> e.idempotency[i] == CompactedStored(stored[i]))
    && ExactlyBlobs(e.blobs, ReceiptFrames(receipts) + ResultFrames(stored))
  }

  method CompactReceipts(receipts: seq<Receipt>, blobs: Blobs) returns (rs: seq<CompactReceipt>, all: Blobs)
    requires Addressed(blobs)
    ensures |rs| == |receipts| && forall i :: 0 <= i < |receipts| ==> rs[i] == CompactedReceipt(receipts[i])
    ensures Addressed(all) && all.at.Keys == blobs.at.Keys + ReceiptFrames(receipts)
  {
    hide Addressed, ReceiptFrames, FrameSet;
    rs, all := [], blobs;
    NoFrames(receipts, []);
    for i := 0 to |receipts|
      invariant Addressed(all) && |rs| == i && forall j :: 0 <= j < i ==> rs[j] == CompactedReceipt(receipts[j])
      invariant all.at.Keys == blobs.at.Keys + ReceiptFrames(receipts[..i])
    {
      var hashes;
      hashes, all := AddFrames(receipts[i].frames, all);
      rs := rs + [CompactReceipt(receipts[i].hash, hashes, receipts[i].rest)];
      ReceiptFramesGrow(receipts, i);
    }
    assert receipts[..|receipts|] == receipts;
  }

  method CompactResults(stored: seq<Stored>, blobs: Blobs) returns (ss: seq<CompactStored>, all: Blobs)
    requires Addressed(blobs)
    ensures |ss| == |stored| && forall i :: 0 <= i < |stored| ==> ss[i] == CompactedStored(stored[i])
    ensures Addressed(all) && all.at.Keys == blobs.at.Keys + ResultFrames(stored)
  {
    hide Addressed, ResultFrames, FrameSet;
    ss, all := [], blobs;
    NoFrames([], stored);
    for i := 0 to |stored|
      invariant Addressed(all) && |ss| == i && forall j :: 0 <= j < i ==> ss[j] == CompactedStored(stored[j])
      invariant all.at.Keys == blobs.at.Keys + ResultFrames(stored[..i])
    {
      var o := stored[i].result.observation;
      var hashes, current;
      hashes, all := AddFrames(o.frames, all);
      current, all := AddFrame(o.current, all);
      ss := ss + [CompactStored(stored[i].key, stored[i].request, stored[i].result.receipt.hash,
              CompactObservation(hashes, current, o.rest))];
      ResultFramesGrow(stored, i);
    }
    assert stored[..|stored|] == stored;
  }

  method Compact(receipts: seq<Receipt>, stored: seq<Stored>) returns (e: Evidence)
    ensures IsCompacted(e, receipts, stored)
  {
    hide Addressed, ReceiptFrames, ResultFrames, ExactlyBlobs, CompactedReceipt, CompactedStored;
    NoBlobs();
    var rs, blobs := CompactReceipts(receipts, EmptyMap());
    var ss, all := CompactResults(stored, blobs);
    AddressedIsExact(all);
    e := Evidence(rs, ss, ListBlobs(all));
    assert all.at.Keys == ReceiptFrames(receipts) + ResultFrames(stored);
  }

  lemma NoFrames(receipts: seq<Receipt>, stored: seq<Stored>)
    ensures ReceiptFrames(receipts[..0]) == {} && ResultFrames(stored[..0]) == {}
  {
  }

  lemma NoBlobs()
    ensures Addressed(EmptyMap<BlobHash, Frame>()) && EmptyMap<BlobHash, Frame>().at == map[]
  {
  }

  lemma ReceiptFramesGrow(receipts: seq<Receipt>, i: nat)
    requires i < |receipts|
    ensures ReceiptFrames(receipts[..i + 1]) == ReceiptFrames(receipts[..i]) + FrameSet(receipts[i].frames)
  {
    assert receipts[..i + 1] == receipts[..i] + [receipts[i]];
    forall h
      ensures h in ReceiptFrames(receipts[..i + 1]) <==>
              h in ReceiptFrames(receipts[..i]) || h in FrameSet(receipts[i].frames) {
      if h in ReceiptFrames(receipts[..i]) {
        var j, f :| 0 <= j < i && f in receipts[..i][j].frames && h == HashOf(f);
        assert receipts[..i + 1][j] == receipts[j];
      }
      if h in FrameSet(receipts[i].frames) {
        assert receipts[..i + 1][i] == receipts[i];
      }
    }
  }

  lemma ResultFramesGrow(stored: seq<Stored>, i: nat)
    requires i < |stored|
    ensures var o := stored[i].result.observation;
            ResultFrames(stored[..i + 1]) == ResultFrames(stored[..i]) + FrameSet(o.frames) + {HashOf(o.current)}
  {
    var o := stored[i].result.observation;
    assert stored[..i + 1] == stored[..i] + [stored[i]];
    forall h
      ensures h in ResultFrames(stored[..i + 1]) <==>
              h in ResultFrames(stored[..i]) || h in FrameSet(o.frames) || h == HashOf(o.current) {
      if h in ResultFrames(stored[..i]) {
        var j, f :| 0 <= j < i && f in stored[..i][j].result.observation.frames
            + [stored[..i][j].result.observation.current] && h == HashOf(f);
        assert stored[..i + 1][j] == stored[j];
      }
      if h in FrameSet(o.frames) {
        var f :| f in o.frames && h == HashOf(f);
        assert stored[..i + 1][i] == stored[i] && f in o.frames + [o.current];
      }
      if h == HashOf(o.current) {
        assert stored[..i + 1][i] == stored[i] && o.current in o.frames + [o.current];
      }
    }
  }

  lemma AddressedIsExact(blobs: Blobs)
    requires Addressed(blobs)
    ensures blobs.Valid() && ExactlyBlobs(ListBlobs(blobs), blobs.at.Keys)
  {
    var bs := ListBlobs(blobs);
    forall i | 0 <= i < |bs| ensures bs[i].hash in blobs.at && bs[i].hash == HashOf(bs[i].frame) {
      assert blobs.keys[i] in Elements(blobs.keys);
    }
    forall h | h in blobs.at ensures exists i :: 0 <= i < |bs| && bs[i].hash == h {
      assert h in Elements(blobs.keys);
      var i :| 0 <= i < |blobs.keys| && blobs.keys[i] == h;
      assert bs[i].hash == h;
    }
  }

  /** When every result shows its receipt's frames, the blobs are exactly those the receipts reference. */
  lemma ReceiptsReferenceAll(receipts: seq<Receipt>, stored: seq<Stored>)
    requires forall i :: 0 <= i < |stored| ==> stored[i].result.receipt in receipts
    requires forall i :: 0 <= i < |stored| ==>
               var o := stored[i].result.observation;
               o.frames == stored[i].result.receipt.frames && o.current in o.frames
    ensures ReceiptFrames(receipts) + ResultFrames(stored) == ReceiptFrames(receipts)
  {
    forall h | h in ResultFrames(stored) ensures h in ReceiptFrames(receipts) {
      var i, f :| 0 <= i < |stored| && f in stored[i].result.observation.frames + [stored[i].result.observation.current]
          && h == HashOf(f);
      var k :| 0 <= k < |receipts| && receipts[k] == stored[i].result.receipt;
      assert f in receipts[k].frames;
    }
  }

  // ---------------------------------------------------------------- hydrating

  type Table = map<BlobHash, Frame>

  ghost predicate BlobsOk(blobs: seq<Blob>) {
    && (forall i, j :: 0 <= i < j < |blobs| ==> blobs[i].hash != blobs[j].hash)
    && (forall i :: 0 <= i < |blobs| ==> blobs[i].hash == HashOf(blobs[i].frame))
  }

  ghost predicate Tabulates(table: Table, blobs: seq<Blob>) {
    && (forall i :: 0 <= i < |blobs| ==> blobs[i].hash in table && table[blobs[i].hash] == blobs[i].frame)
    && (forall h :: h in table ==> exists i :: 0 <= i < |blobs| && blobs[i].hash == h)
  }

  method FrameMap(blobs: seq<Blob>) returns (ok: bool, table: Table)
    ensures ok <==> BlobsOk(blobs)
    ensures ok ==> Tabulates(table, blobs)
  {
    table := map[];
    for i := 0 to |blobs|
      invariant BlobsOk(blobs[..i]) && Tabulates(table, blobs[..i])
    {
      var b := blobs[i];
      assert blobs[..i + 1] == blobs[..i] + [b];
      if b.hash in table || b.hash != HashOf(b.frame) {
        if b.hash in table {
          var j :| 0 <= j < i && blobs[..i][j].hash == b.hash;
          assert blobs[j].hash == blobs[i].hash;
        }
        return false, table;
      }
      table := TabulateOne(table, blobs[..i], b);
    }
    assert blobs[..|blobs|] == blobs;
    ok := true;
  }

  function TabulateOne(table: Table, ghost blobs: seq<Blob>, b: Blob): (all: Table)
    requires Tabulates(table, blobs) && b.hash !in table
    ensures Tabulates(all, blobs + [b])
  {
    assert forall i :: 0 <= i < |blobs| ==> (blobs + [b])[i] == blobs[i];
    assert (blobs + [b])[|blobs|] == b;
    table[b.hash := b.frame]
  }

  /** The frames behind a list of blob hashes, unless one is missing. */
  ghost function Restored(hashes: seq<BlobHash>, table: Table): Option<seq<Frame>> {
    if hashes == [] then Some([])
    else if hashes[0] !in table then None
    else
      match Restored(hashes[1..], table)
      case None => None
      case Some(rest) => Some([table[hashes[0]]] + rest)
  }

  method RestoreFrames(hashes: seq<BlobHash>, table: Table) returns (r: Option<seq<Frame>>)
    ensures r == Restored(hashes, table)
  {
    var frames: seq<Frame> := [];
    assert hashes[0..] == hashes;
    BeforeNothing(Restored(hashes, table), table);
    for i := 0 to |hashes|
      invariant Restored(hashes, table) == Before(frames, Restored(hashes[i..], table))
    {
      assert hashes[i..][1..] == hashes[i + 1..];
      if hashes[i] !in table { return None; }
      RestoredFrom(hashes, table, i, frames);
      frames := frames + [table[hashes[i]]];
    }
    assert hashes[|hashes|..] == [] && frames + [] == frames;
    r := Some(frames);
  }

  lemma BeforeNothing(rest: Option<seq<Frame>>, table: Table)
    ensures Before([], rest) == rest && Restored([], table) == Some([])
  {
    assert rest.Some? ==> [] + rest.value == rest.value;
  }

  ghost function Before(frames: seq<Frame>, rest: Option<seq<Frame>>): Option<seq<Frame>> {
    match rest
    case None => None
    case Some(more) => Some(frames + more)
  }

  lemma RestoredFrom(hashes: seq<BlobHash>, table: Table, i: nat, frames: seq<Frame>)
    requires i < |hashes| && hashes[i] in table
    ensures Before(frames, Restored(hashes[i..], table))
         == Before(frames + [table[hashes[i]]], Restored(hashes[i + 1..], table))
  {
    assert hashes[i..][1..] == hashes[i + 1..];
    match Restored(hashes[i + 1..], table)
    case None =>
    case Some(more) => assert frames + ([table[hashes[i]]] + more) == frames + [table[hashes[i]]] + more;
  }

  ghost function HydratedReceipt(c: CompactReceipt, table: Table): Option<Receipt> {
    match Restored(c.frames, table)
    case None => None
    case Some(frames) => Some(Receipt(c.hash, frames, c.rest))
  }

  ghost predicate AreHydrated(rs: seq<Receipt>, e: Evidence, table: Table) {
    |rs| == |e.receipts| && forall i :: 0 <= i < |rs| ==> HydratedReceipt(e.receipts[i], table) == Some(rs[i])
  }

  /** The receipts behind the compact ones; `chain` is the receipt chain's own verification. */
  method HydrateReceipts(e: Evidence, chain: seq<Receipt> -> bool) returns (r: Option<seq<Receipt>>)
    ensures forall table, rs :: BlobsOk(e.blobs) && Tabulates(table, e.blobs) ==>
            (r == Some(rs) <==> AreHydrated(rs, e, table) && chain(rs))
    ensures !BlobsOk(e.blobs) ==> r == None
  {
    hide HydratedReceipt, BlobsOk;
    var ok, table := FrameMap(e.blobs);
    if !ok { return None; }
    OneTable(table, e.blobs);
    hide Tabulates;
    var rs: seq<Receipt> := [];
    for i := 0 to |e.receipts|
      invariant |rs| == i && forall j :: 0 <= j < i ==> HydratedReceipt(e.receipts[j], table) == Some(rs[j])
    {
      HydratedIs(e.receipts[i], table);
      var frames := RestoreFrames(e.receipts[i].frames, table);
      if frames.None? { return None; }
      rs := rs + [Receipt(e.receipts[i].hash, frames.value, e.receipts[i].rest)];
    }
    forall xs | AreHydrated(xs, e, table) ensures xs == rs {}
    r := if chain(rs) then Some(rs) else None;
  }

  lemma HydratedIs(c: CompactReceipt, table: Table)
    ensures HydratedReceipt(c, table) ==
            if Restored(c.frames, table).None? then None
            else Some(Receipt(c.hash, Restored(c.frames, table).value, c.rest))
  {
  }

  lemma OneTable(table: Table, blobs: seq<Blob>)
    requires Tabulates(table, blobs)
    ensures forall other: Table :: Tabulates(other, blobs) ==> other == table
  {
    forall other: Table | Tabulates(other, blobs) ensures other == table {
      assert other.Keys == table.Keys;
    }
  }

  lemma {:induction false} RestoresFrames(frames: seq<Frame>, table: Table)
    requires (forall h :: h in table ==> h == HashOf(table[h])) && forall f :: f in frames ==> HashOf(f) in table
    ensures Restored(HashesOf(frames), table) == Some(frames)
  {
    if frames != [] {
      assert HashesOf(frames)[1..] == HashesOf(frames[1..]);
      RestoresFrames(frames[1..], table);
      assert frames == [frames[0]] + frames[1..];
    }
  }

  /** The last receipt with a hash: the later entry of the lookup map wins. */
  ghost function ByHash(receipts: seq<Receipt>, hash: string): Option<Receipt> {
    if receipts == [] then None
    else
      var last := receipts[|receipts| - 1];
      if last.hash == hash then Some(last) else ByHash(receipts[..|receipts| - 1], hash)
  }

  method FindReceipt(receipts: seq<Receipt>, hash: string) returns (r: Option<Receipt>)
    ensures r == ByHash(receipts, hash)
  {
    r := None;
    for i := 0 to |receipts|
      invariant r == ByHash(receipts[..i], hash)
    {
      assert receipts[..i + 1][..i] == receipts[..i];
      if receipts[i].hash == hash { r := Some(receipts[i]); }
    }
    assert receipts[..|receipts|] == receipts;
  }

  ghost function HydratedStored(c: CompactStored, receipts: seq<Receipt>, table: Table): Option<Stored> {
    match (ByHash(receipts, c.receipt), Restored(c.observation.frames, table))
    case (Some(receipt), Some(frames)) =>
      if c.observation.current in table && frames != []
          && frames[|frames| - 1].ref == table[c.observation.current].ref then
        Some(Stored(c.key, c.request,
                ActResult(Observation(frames, table[c.observation.current], c.observation.rest), receipt, false)))
      else None
    case _ => None
  }

  /** One stored result: its receipt must be listed, its frames stored, and the last of them current. */
  method HydrateStored(c: CompactStored, receipts: seq<Receipt>, table: Table) returns (s: Option<Stored>)
    ensures s == HydratedStored(c, receipts, table)
  {
    var receipt := FindReceipt(receipts, c.receipt);
    if receipt.None? { return None; }
    var frames := RestoreFrames(c.observation.frames, table);
    if frames.None? || c.observation.current !in table || frames.value == [] { return None; }
    var current := table[c.observation.current];
    if frames.value[|frames.value| - 1].ref != current.ref { return None; }
    var observation := Observation(frames.value, current, c.observation.rest);
    s := Some(Stored(c.key, c.request, ActResult(observation, receipt.value, false)));
  }

  ghost predicate ResultsHydrated(ss: seq<Stored>, e: Evidence, receipts: seq<Receipt>, table: Table) {
    |ss| == |e.idempotency| && forall i :: 0 <= i < |ss| ==>
        HydratedStored(e.idempotency[i], receipts, table) == Some(ss[i])
  }

  method HydrateIdempotency(e: Evidence, receipts: seq<Receipt>) returns (r: Option<seq<Stored>>)
    ensures forall table, ss :: BlobsOk(e.blobs) && Tabulates(table, e.blobs) ==>
            (r == Some(ss) <==> ResultsHydrated(ss, e, receipts, table))
    ensures !BlobsOk(e.blobs) ==> r == None
  {
    hide HydratedStored, BlobsOk;
    var ok, table := FrameMap(e.blobs);
    if !ok { return None; }
    OneTable(table, e.blobs);
    hide Tabulates;
    var ss: seq<Stored> := [];
    for i := 0 to |e.idempotency|
      invariant |ss| == i && forall j :: 0 <= j < i ==> HydratedStored(e.idempotency[j], receipts, table) == Some(ss[j])
    {
      var h := HydrateStored(e.idempotency[i], receipts, table);
      if h.None? { return None; }
      ss := ss + [h.value];
    }
    forall xs | ResultsHydrated(xs, e, receipts, table) ensures xs == ss {}
    r := Some(ss);
  }

  // ---------------------------------------------------------------- the round trip

  lemma CompactedTable(e: Evidence, receipts: seq<Receipt>, stored: seq<Stored>, table: Table)
    requires IsCompacted(e, receipts, stored) && Tabulates(table, e.blobs)
    ensures BlobsOk(e.blobs) && table.Keys == ReceiptFrames(receipts) + ResultFrames(stored)
    ensures forall h :: h in table ==> h == HashOf(table[h])
  {
    forall h | h in table ensures h == HashOf(table[h]) && h in ReceiptFrames(receipts) + ResultFrames(stored) {
      var i :| 0 <= i < |e.blobs| && e.blobs[i].hash == h;
    }
    forall h | h in ReceiptFrames(receipts) + ResultFrames(stored) ensures h in table {
      assert h in set i | 0 <= i < |e.blobs| :: e.blobs[i].hash;
    }
  }

  /** Receipts survive compaction unchanged. */
  lemma ReceiptRoundTrip(e: Evidence, receipts: seq<Receipt>, stored: seq<Stored>, table: Table, i: nat)
    requires IsCompacted(e, receipts, stored) && Tabulates(table, e.blobs) && i < |receipts|
    ensures HydratedReceipt(e.receipts[i], table) == Some(receipts[i])
  {
    CompactedTable(e, receipts, stored, table);
    forall f | f in receipts[i].frames ensures HashOf(f) in table {
      assert HashOf(f) in ReceiptFrames(receipts);
    }
    RestoresFrames(receipts[i].frames, table);
  }

  /** A result that compaction can bring back: not a replay, its receipt the listed one, its current frame the last. */
  ghost predicate Restorable(s: Stored, receipts: seq<Receipt>) {
    var o := s.result.observation;
    && !s.result.replayed
    && ByHash(receipts, s.result.receipt.hash) == Some(s.result.receipt)
    && o.frames != [] && o.frames[|o.frames| - 1].ref == o.current.ref
  }

  /** A result comes back unchanged exactly when it is restorable. */
  lemma StoredRoundTrip(e: Evidence, receipts: seq<Receipt>, stored: seq<Stored>, table: Table, i: nat)
    requires IsCompacted(e, receipts, stored) && Tabulates(table, e.blobs) && i < |stored|
    ensures HydratedStored(e.idempotency[i], receipts, table) == Some(stored[i]) <==> Restorable(stored[i], receipts)
  {
    var o := stored[i].result.observation;
    ResultFramesListed(e, receipts, stored, table, i);
    hide ResultFrames, Tabulates;
    assert o.current in o.frames + [o.current];
    RestoresFrames(o.frames, table);
  }

  /** The frames of every stored result are in the table. */
  lemma ResultFramesListed(e: Evidence, receipts: seq<Receipt>, stored: seq<Stored>, table: Table, i: nat)
    requires IsCompacted(e, receipts, stored) && Tabulates(table, e.blobs) && i < |stored|
    ensures forall h :: h in table ==> h == HashOf(table[h])
    ensures forall f :: f in stored[i].result.observation.frames + [stored[i].result.observation.current] ==>
            HashOf(f) in table
  {
    CompactedTable(e, receipts, stored, table);
    var o := stored[i].result.observation;
    forall f | f in o.frames + [o.current] ensures HashOf(f) in table {
      assert HashOf(f) in ResultFrames(stored);
    }
  }

  lemma {:induction false} UniqueHashIsFound(receipts: seq<Receipt>, r: Receipt)
    requires r in receipts && forall i, j :: 0 <= i < j < |receipts| ==> receipts[i].hash != receipts[j].hash
    ensures ByHash(receipts, r.hash) == Some(r)
  {
    var n := |receipts| - 1;
    if receipts[n] != r {
      var i :| 0 <= i < n && receipts[i] == r;
      UniqueHashIsFound(receipts[..n], r);
    }
  }

  /**
   * Compacting and hydrating gives back receipts and results, for results that cite listed receipts with
   * unique hashes, are not replays, and end on their current frame.
   */
  method RoundTrip(receipts: seq<Receipt>, stored: seq<Stored>, chain: seq<Receipt> -> bool)
    returns (rs: Option<seq<Receipt>>, ss: Option<seq<Stored>>)
    requires chain(receipts) && forall i, j :: 0 <= i < j < |receipts| ==> receipts[i].hash != receipts[j].hash
    requires forall i :: 0 <= i < |stored| ==> stored[i].result.receipt in receipts
    ensures rs == Some(receipts)
    ensures ss == Some(stored) <==> forall i :: 0 <= i < |stored| ==>
              !stored[i].result.replayed && stored[i].result.observation.frames != []
              && stored[i].result.observation.frames[|stored[i].result.observation.frames| - 1].ref
                  == stored[i].result.observation.current.ref
  {
    hide IsCompacted, HydratedReceipt, HydratedStored, BlobsOk, Tabulates;
    var e := Compact(receipts, stored);
    rs := HydrateReceipts(e, chain);
    ss := HydrateIdempotency(e, receipts);
    var ok, table := FrameMap(e.blobs);
    CompactedIsOk(e, receipts, stored);
    forall i | 0 <= i < |receipts| ensures HydratedReceipt(e.receipts[i], table) == Some(receipts[i]) {
      ReceiptRoundTrip(e, receipts, stored, table, i);
    }
    forall i | 0 <= i < |stored|
      ensures HydratedStored(e.idempotency[i], receipts, table) == Some(stored[i]) <==> Restorable(stored[i], receipts)
      ensures ByHash(receipts, stored[i].result.receipt.hash) == Some(stored[i].result.receipt)
    {
      StoredRoundTrip(e, receipts, stored, table, i);
      UniqueHashIsFound(receipts, stored[i].result.receipt);
    }
  }

  lemma CompactedIsOk(e: Evidence, receipts: seq<Receipt>, stored: seq<Stored>)
    requires IsCompacted(e, receipts, stored)
    ensures BlobsOk(e.blobs) && |e.receipts| == |receipts| && |e.idempotency| == |stored|
  {
  }
}
