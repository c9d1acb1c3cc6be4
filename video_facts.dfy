/**
 * What `handleVideo` and `processFrame` (client/js/network.js) promise,
 * stated over the functions of NetworkVideo: duplicates are ignored,
 * chunks once stored stay, a finished frame is decoded or counted as
 * dropped, the table evicts its smallest id, the sweep's cases, and the
 * joined chunks of a frame are the bytes the server split.
 */
module VideoFacts {
  import opened Bytes
  import opened ClientState
  import opened KeyRequests
  import opened Media
  import opened NetworkFec
  import opened FrameTable
  import opened NetworkVideo
  import H = VideoHeader
  import W = WebRtc

  // ---------------------------------------------------------------------
  // Filing a packet into its frame
  // ---------------------------------------------------------------------

  /** A packet is refused exactly when its slot, or its group's parity, is already there. */
  lemma StoreRefusesDuplicates(f: PendingFrame, h: H.Header, data: seq<byte>)
    requires Shaped(f) && (h.packetType == H.PKT_DATA ==> h.chunkIndex < f.total)
    ensures Store(f, h, data).None? <==>
      if h.packetType == H.PKT_DATA then f.parts[h.chunkIndex].Some? else h.chunkIndex in f.fecParts
  {
    var ci := h.chunkIndex;
    if h.packetType == H.PKT_DATA {
      if f.parts[ci].None? {
        var f1 := f.(parts := f.parts[ci := Some(data)], partSizes := f.partSizes[ci := h.chunkBytes],
                     received := f.received + 1);
        var g := ci / f.fecGroupSize;
        assert Store(f, h, data) == Some(if g in f1.fecParts then RecoverOrKeep(f1, g) else f1);
      }
    } else if ci !in f.fecParts {
      var f1 := f.(fecParts := f.fecParts[ci := data], fecOrder := f.fecOrder + [ci]);
      assert Store(f, h, data) == Some(RecoverOrKeep(f1, ci));
    }
  }

  /** Trying a group never changes a filled slot or any parity. */
  lemma RecoverOrKeepKeeps(f: PendingFrame, g: nat)
    requires Shaped(f)
    ensures var r := RecoverOrKeep(f, g);
      |r.parts| == |f.parts| && r.fecParts == f.fecParts &&
      forall i :: 0 <= i < |f.parts| && f.parts[i].Some? ==> r.parts[i] == f.parts[i]
  {
    if Recover(f, g).Some? {
      RecoverSlot(f, g);
      RecoverCounts(f, g);
    }
  }

  /** A new chunk lands in its slot, and every chunk already there stays. */
  lemma StoreKeepsChunks(f: PendingFrame, h: H.Header, data: seq<byte>)
    requires Shaped(f) && h.packetType == H.PKT_DATA && h.chunkIndex < f.total && f.parts[h.chunkIndex].None?
    ensures Store(f, h, data).Some?
    ensures var r := Store(f, h, data).value;
      |r.parts| == |f.parts| && r.parts[h.chunkIndex] == Some(data) &&
      forall i :: 0 <= i < |f.parts| && f.parts[i].Some? ==> r.parts[i] == f.parts[i]
  {
    var ci := h.chunkIndex;
    var f1 := f.(parts := f.parts[ci := Some(data)], partSizes := f.partSizes[ci := h.chunkBytes],
                 received := f.received + 1);
    var g := ci / f.fecGroupSize;
    if g in f1.fecParts {
      RecoverOrKeepKeeps(f1, g);
      assert Store(f, h, data) == Some(RecoverOrKeep(f1, g));
    } else {
      assert Store(f, h, data) == Some(f1);
    }
  }

  /** A new parity is kept under its group, and every chunk already there stays. */
  lemma StoreKeepsParity(f: PendingFrame, h: H.Header, data: seq<byte>)
    requires Shaped(f) && h.packetType != H.PKT_DATA && h.chunkIndex !in f.fecParts
    ensures Store(f, h, data).Some?
    ensures var r := Store(f, h, data).value;
      |r.parts| == |f.parts| && h.chunkIndex in r.fecParts && r.fecParts[h.chunkIndex] == data &&
      forall i :: 0 <= i < |f.parts| && f.parts[i].Some? ==> r.parts[i] == f.parts[i]
  {
    var ci := h.chunkIndex;
    var f1 := f.(fecParts := f.fecParts[ci := data], fecOrder := f.fecOrder + [ci]);
    RecoverOrKeepKeeps(f1, ci);
    assert Store(f, h, data) == Some(RecoverOrKeep(f1, ci));
  }

  /** A duplicate chunk or parity changes nothing at all. */
  lemma DuplicateIgnored(v: VideoPath, h: H.Header, data: seq<byte>, nowMs: real, rejects: set<int>, k: nat)
    requires AllShaped(v.chunks) && (h.packetType == H.PKT_DATA ==> h.chunkIndex < h.totalChunks)
    requires Find(v.chunks, h.frameId) == Some(k) && !Mismatch(v.chunks[k].frame, h)
    requires if h.packetType == H.PKT_DATA then v.chunks[k].frame.parts[h.chunkIndex].Some?
             else h.chunkIndex in v.chunks[k].frame.fecParts
    ensures Deliver(v, h, data, nowMs, rejects) == v
  {
    StoreRefusesDuplicates(v.chunks[k].frame, h, data);
  }

  /** A packet whose frame metadata disagrees with the pending frame's is dropped. */
  lemma MismatchDropped(v: VideoPath, h: H.Header, data: seq<byte>, nowMs: real, rejects: set<int>, k: nat)
    requires AllShaped(v.chunks) && (h.packetType == H.PKT_DATA ==> h.chunkIndex < h.totalChunks)
    requires Find(v.chunks, h.frameId) == Some(k) && Mismatch(v.chunks[k].frame, h)
    ensures Deliver(v, h, data, nowMs, rejects) == VideoDrop(v)
  {
  }

  // ---------------------------------------------------------------------
  // processFrame
  // ---------------------------------------------------------------------

  /** What `processFrame` hands to `decodeFrame`. */
  function Submitted(f: PendingFrame): FrameData
    requires Complete(f.parts)
  {
    FrameData(Assembled(f.parts), f.capTs, f.isKey, f.arrivalMs)
  }

  /** The state `processFrame` leaves, in terms of the state `decodeFrame` leaves. */
  lemma FinishSteps(v: VideoPath, id: nat, f: PendingFrame, nowMs: real, rejects: set<int>)
    requires Complete(f.parts)
    ensures var w := Decode(Completed(v, id, f.isKey), Submitted(f), nowMs, rejects);
      Finish(v, id, f, nowMs, rejects) ==
        w.(chunks := Remove(v.chunks, id), waitingFirstFrame := false,
           hasConnection := w.hasConnection || v.waitingFirstFrame)
  {
    var v1 := Completed(v, id, f.isKey);
    DecodeLeavesTable(v1, Submitted(f), nowMs, rejects);
  }

  /**
   * A complete frame the decoder takes: its joined bytes are submitted
   * with the capture time's duration, it is counted, the cursor moves up
   * to it, the first frame ends the wait, and its entry goes.
   */
  lemma FinishDecodes(v: VideoPath, id: nat, f: PendingFrame, nowMs: real, rejects: set<int>)
    requires Complete(f.parts)
    requires GateOf(Completed(v, id, f.isKey), Submitted(f)) == Accepted && f.capTs !in rejects
    ensures var r := Finish(v, id, f, nowMs, rejects);
      r.decoded == v.decoded + [DecodeJob(Assembled(f.parts), f.capTs, f.isKey, Duration(v.lastCaptureTs, f.capTs))] &&
      r.stats.framesComplete == v.stats.framesComplete + 1 &&
      r.stats.framesDropped == v.stats.framesDropped &&
      r.lastFrameId == Max(v.lastFrameId, id) && r.chunks == Remove(v.chunks, id) &&
      !r.waitingFirstFrame && r.hasConnection == (v.hasConnection || v.waitingFirstFrame)
  {
    var v1 := Completed(v, id, f.isKey);
    FinishSteps(v, id, f, nowMs, rejects);
    AcceptedDecodes(v1, Submitted(f), nowMs, rejects);
  }

  /** The parts of the state `processFrame` takes from `decodeFrame`, and the parts it sets itself. */
  lemma FinishFields(v: VideoPath, id: nat, f: PendingFrame, nowMs: real, rejects: set<int>)
    requires Complete(f.parts)
    ensures var w := Decode(Completed(v, id, f.isKey), Submitted(f), nowMs, rejects);
      var r := Finish(v, id, f, nowMs, rejects);
      r.decoded == w.decoded && r.stats == w.stats && r.lastFrameId == Max(v.lastFrameId, id) &&
      r.chunks == Remove(v.chunks, id)
  {
    FinishSteps(v, id, f, nowMs, rejects);
    DecodeLeavesTable(Completed(v, id, f.isKey), Submitted(f), nowMs, rejects);
  }

  /** A complete frame stopped by a gate of `decodeFrame` is counted as complete and as dropped. */
  lemma FinishRefused(v: VideoPath, id: nat, f: PendingFrame, nowMs: real, rejects: set<int>)
    requires Complete(f.parts) && GateOf(Completed(v, id, f.isKey), Submitted(f)) != Accepted
    ensures var r := Finish(v, id, f, nowMs, rejects);
      r.decoded == v.decoded &&
      r.stats.framesComplete == v.stats.framesComplete + 1 &&
      r.stats.framesDropped == v.stats.framesDropped + 1 &&
      r.lastFrameId == Max(v.lastFrameId, id) && r.chunks == Remove(v.chunks, id)
  {
    FinishFields(v, id, f, nowMs, rejects);
    GateDrops(Completed(v, id, f.isKey), Submitted(f), nowMs, rejects);
  }

  /** An incomplete frame is counted as dropped twice and deleted; nothing is decoded. */
  lemma FinishIncomplete(v: VideoPath, id: nat, f: PendingFrame, nowMs: real, rejects: set<int>)
    requires !Complete(f.parts)
    ensures Finish(v, id, f, nowMs, rejects) ==
      v.(stats := v.stats.(framesDropped := v.stats.framesDropped + 2), chunks := Remove(v.chunks, id))
  {
  }

  // ---------------------------------------------------------------------
  // trackFrame: the table's capacity
  // ---------------------------------------------------------------------

  /** Appending an entry with a larger id keeps the smallest id where it was. */
  lemma MinAppend(t: seq<Entry>, e: Entry)
    requires |t| > 0 && t[MinAt(t)].id < e.id
    ensures (t + [e])[MinAt(t + [e])].id == t[MinAt(t)].id
  {
    var es := t + [e];
    var k := MinAt(es);
    assert es[MinAt(t)] == t[MinAt(t)];
    if k < |t| {
      assert es[k] == t[k];
    }
  }

  /** Deleting an id other than the last entry's keeps the last entry last. */
  lemma RemoveAppend(t: seq<Entry>, e: Entry, id: nat)
    requires e.id != id
    ensures Remove(t + [e], id) == Remove(t, id) + [e]
  {
    assert (t + [e])[..|t|] == t;
  }

  /**
   * A full table takes a new frame whose id is not the smallest by
   * deleting the entry with the smallest id: its size stays put.
   */
  lemma EvictsSmallest(t: seq<Entry>, h: H.Header, nowMs: real)
    requires Distinct(t) && !Has(t, h.frameId) && |t| >= MAX_FRAMES && t[MinAt(t)].id < h.frameId
    ensures Tracked(t, h, nowMs) == Remove(t, t[MinAt(t)].id) + [Entry(h.frameId, NewFrame(h, nowMs))]
    ensures |Tracked(t, h, nowMs)| == |t|
  {
    var e := Entry(h.frameId, NewFrame(h, nowMs));
    var m := t[MinAt(t)].id;
    MinAppend(t, e);
    RemoveAppend(t, e, m);
    RemovePresent(t, m);
  }

  /**
   * A new frame whose id is below every pending one is appended even to a
   * full table: the eviction picks the newcomer and keeps it, so the table
   * then holds more than `MAX_FRAMES` entries.
   */
  lemma SmallestNewcomerKept(t: seq<Entry>, h: H.Header, nowMs: real)
    requires !Has(t, h.frameId) && (|t| == 0 || h.frameId < t[MinAt(t)].id)
    ensures Tracked(t, h, nowMs) == t + [Entry(h.frameId, NewFrame(h, nowMs))]
    ensures |t| == MAX_FRAMES ==> |Tracked(t, h, nowMs)| == MAX_FRAMES + 1
  {
    var es := t + [Entry(h.frameId, NewFrame(h, nowMs))];
    assert forall j :: 0 <= j < |t| ==> es[j] == t[j];
    assert es[|t|].id == h.frameId;
  }

  /**
   * Evicting a frame counts a drop; a keyframe evicted while none is
   * awaited starts the wait and asks for one.
   */
  lemma EvictionReacts(v: VideoPath, newId: nat, nowMs: real)
    requires |v.chunks| > 0 && v.chunks[MinAt(v.chunks)].id != newId
    ensures var r := Evict(v, newId, nowMs);
      var lost := v.chunks[MinAt(v.chunks)].frame.isKey && !v.needKey;
      r.stats == v.stats.(framesDropped := v.stats.framesDropped + 1) &&
      r.needKey == (v.needKey || lost) &&
      r.ctrlSent == (if lost && Sends(v, nowMs) then v.ctrlSent + [KeyRequestMessage()] else v.ctrlSent) &&
      r.decoded == v.decoded
  {
    var e := v.chunks[MinAt(v.chunks)];
    var v1 := VideoDrop(v).(chunks := Remove(v.chunks, e.id));
    if e.frame.isKey && !v.needKey {
      var w := v1.(needKey := true);
      assert Sends(w, nowMs) == Sends(v, nowMs);
      assert Evict(v, newId, nowMs) == RequestKey(w, nowMs);
    } else {
      assert Evict(v, newId, nowMs) == v1;
    }
  }

  // ---------------------------------------------------------------------
  // The expiry sweep
  // ---------------------------------------------------------------------

  /** An overdue frame behind the cursor is deleted without being counted. */
  lemma SweepDeletesBehind(v: VideoPath, e: Entry, nowMs: real, rejects: set<int>)
    requires Shaped(e.frame) && Overdue(e.frame, nowMs) && v.lastFrameId > 0 && e.id < v.lastFrameId
    ensures SweepOne(v, e, nowMs, rejects) == v.(chunks := Remove(v.chunks, e.id))
  {
  }

  /** Salvaging keeps a frame's bookkeeping right, so a salvaged frame that reached its total is complete. */
  lemma SalvagedComplete(f: PendingFrame)
    requires Consistent(f) && Salvage(f).received == Salvage(f).total
    ensures Complete(Salvage(f).parts)
  {
    if |f.fecParts| > 0 {
      RecoverEachOk(f, f.fecOrder, |f.fecOrder|);
    }
    CountedComplete(Salvage(f));
  }

  /** Expiring a keyframe that had begun to arrive, while none is awaited: the wait starts and a request may go. */
  lemma ExpireLost(v: VideoPath, id: nat, f: PendingFrame, nowMs: real)
    ensures f.isKey && f.received > 0 && !v.needKey ==>
      var r := Expire(v, id, f, nowMs);
      r.stats == v.stats.(framesDropped := v.stats.framesDropped + 1, framesTimeout := v.stats.framesTimeout + 1) &&
      r.chunks == Remove(v.chunks, id) && r.needKey && r.decoded == v.decoded &&
      r.ctrlSent == if Sends(v, nowMs) then v.ctrlSent + [KeyRequestMessage()] else v.ctrlSent
  {
    if f.isKey && f.received > 0 && !v.needKey {
      var w := TimedOut(v, id).(needKey := true);
      assert w.stats == v.stats.(framesDropped := v.stats.framesDropped + 1, framesTimeout := v.stats.framesTimeout + 1);
      assert w.ctrlSent == v.ctrlSent && w.decoded == v.decoded;
      assert Sends(w, nowMs) == Sends(v, nowMs);
      assert Expire(v, id, f, nowMs) == RequestKey(w, nowMs);
    }
  }

  /**
   * A frame that timed out: one drop, one timeout, and a keyframe that
   * had begun to arrive is asked for again unless one is already awaited.
   */
  lemma ExpireReacts(v: VideoPath, id: nat, f: PendingFrame, nowMs: real)
    ensures Expire(v, id, f, nowMs).stats ==
      v.stats.(framesDropped := v.stats.framesDropped + 1, framesTimeout := v.stats.framesTimeout + 1)
    ensures Expire(v, id, f, nowMs).chunks == Remove(v.chunks, id)
    ensures Expire(v, id, f, nowMs).needKey == (v.needKey || (f.isKey && f.received > 0))
    ensures Expire(v, id, f, nowMs).ctrlSent ==
      if f.isKey && f.received > 0 && !v.needKey && Sends(v, nowMs) then v.ctrlSent + [KeyRequestMessage()]
      else v.ctrlSent
    ensures Expire(v, id, f, nowMs).decoded == v.decoded
  {
    ExpireLost(v, id, f, nowMs);
  }

  /** An overdue frame, at or past the cursor, that the parity could not complete times out. */
  lemma SweepExpires(v: VideoPath, e: Entry, nowMs: real, rejects: set<int>)
    requires Shaped(e.frame) && Overdue(e.frame, nowMs) && !(v.lastFrameId > 0 && e.id < v.lastFrameId)
    requires !(|e.frame.fecParts| > 0 && Salvage(e.frame).received == Salvage(e.frame).total)
    ensures SweepOne(v, e, nowMs, rejects) == Expire(v, e.id, Salvage(e.frame), nowMs)
  {
  }

  /** An overdue frame the parity completes is processed like any complete frame. */
  lemma SweepSalvages(v: VideoPath, e: Entry, nowMs: real, rejects: set<int>)
    requires Consistent(e.frame) && Overdue(e.frame, nowMs) && !(v.lastFrameId > 0 && e.id < v.lastFrameId)
    requires |e.frame.fecParts| > 0 && Salvage(e.frame).received == Salvage(e.frame).total
    ensures Complete(Salvage(e.frame).parts)
    ensures SweepOne(v, e, nowMs, rejects) == Finish(v, e.id, Salvage(e.frame), nowMs, rejects)
  {
    SalvagedComplete(e.frame);
  }

  // ---------------------------------------------------------------------
  // The frame the server sent
  // ---------------------------------------------------------------------

  /** Slots holding the server's chunks are complete, and their payloads are those chunks. */
  lemma PayloadsAreChunks(parts: seq<Option<seq<byte>>>, data: seq<byte>, d: nat)
    requires 0 < d && |parts| == W.NumChunks(|data|, d)
    requires forall i :: 0 <= i < |parts| ==> parts[i] == Some(W.Chunk(data, d, i))
    ensures Complete(parts) && Payloads(parts) == W.Chunks(data, d, 0, |parts|)
  {
    var n := |parts|;
    forall i | 0 <= i < n
      ensures Payloads(parts)[i] == W.Chunks(data, d, 0, n)[i]
    {
      W.ChunksAt(data, d, 0, n, i);
    }
  }

  /**
   * Reassembly undoes the server's chunking: a frame whose slots hold the
   * server's chunks of `data` is complete, and the buffer it hands to the
   * decoder is `data`.
   */
  lemma AssembledIsData(parts: seq<Option<seq<byte>>>, data: seq<byte>, d: nat)
    requires 0 < d && |parts| == W.NumChunks(|data|, d)
    requires forall i :: 0 <= i < |parts| ==> parts[i] == Some(W.Chunk(data, d, i))
    ensures Complete(parts) && Assembled(parts) == data
  {
    PayloadsAreChunks(parts, data, d);
    W.AllChunksJoin(data, d);
  }
}
