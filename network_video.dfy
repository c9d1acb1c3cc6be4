/**
 * The client's video reassembler (`handleVideo` and `processFrame` in
 * client/js/network.js) as functions of the video path's state: packets
 * are checked, counted, filed by frame id, repaired from parity, and
 * complete frames handed to `decodeFrame`; overdue frames are swept out
 * and the table is kept near `MAX_FRAMES`.
 */
module NetworkVideo {
  import opened Bytes
  import opened ClientState
  import opened KeyRequests
  import opened Media
  import opened NetworkFec
  import opened FrameTable
  import H = VideoHeader

  // ---------------------------------------------------------------------
  // The packet
  // ---------------------------------------------------------------------

  /** The checks `handleVideo` makes before it counts a packet. */
  predicate WellFormedPacket(p: seq<byte>)
  {
    |p| >= HEADER &&
    var h := H.Decode(p);
    h.totalChunks != 0 && h.captureTs > 0 && h.frameSize != 0 && h.dataChunkSize != 0 &&
    !(h.packetType == H.PKT_DATA && h.chunkIndex >= h.totalChunks) &&
    (h.packetType == H.PKT_DATA || h.packetType == H.PKT_FEC) &&
    h.chunkBytes == |p| - HEADER
  }

  /** `view.getUint8(30) || C.FEC_GROUP_SIZE`. */
  function FecGroupOf(h: H.Header): nat
  {
    if h.fecGroupSize == 0 then FEC_GROUP_SIZE else h.fecGroupSize
  }

  /** A counted packet: one more video packet and its bytes. */
  function Counted(v: VideoPath, size: nat): VideoPath
  {
    v.(net := RecordPacket(v.net, size, "video"), stats := v.stats.(bytes := v.stats.bytes + size))
  }

  /** A frame id at or behind the last completed one. */
  predicate Behind(v: VideoPath, frameId: nat)
  {
    v.lastFrameId > 0 && frameId <= v.lastFrameId
  }

  // ---------------------------------------------------------------------
  // processFrame
  // ---------------------------------------------------------------------

  /** `frame.parts.every(p => p)`. */
  predicate Complete(parts: seq<Option<seq<byte>>>)
  {
    forall i :: 0 <= i < |parts| ==> parts[i].Some?
  }

  /** The parts' bytes, in index order. */
  function Payloads(parts: seq<Option<seq<byte>>>): (r: seq<seq<byte>>)
    requires Complete(parts)
    ensures |r| == |parts| && forall i :: 0 <= i < |parts| ==> parts[i] == Some(r[i])
  {
    seq(|parts|, i requires 0 <= i < |parts| => parts[i].value)
  }

  /** The buffer handed to the decoder: the parts joined in index order. */
  function Assembled(parts: seq<Option<seq<byte>>>): seq<byte>
    requires Complete(parts)
  {
    Concat(Payloads(parts))
  }

  /** A frame completes: counted, and the cursor moves up to it. */
  function Completed(v: VideoPath, id: nat, isKey: bool): VideoPath
  {
    v.(stats := v.stats.(framesComplete := v.stats.framesComplete + 1,
                         keyframesReceived := v.stats.keyframesReceived + (if isKey then 1 else 0)),
       lastFrameId := if id > v.lastFrameId then id else v.lastFrameId)
  }

  /** The first frame ends the wait for a connection. */
  function FirstFrame(v: VideoPath): VideoPath
  {
    if v.waitingFirstFrame then v.(waitingFirstFrame := false, hasConnection := true) else v
  }

  /**
   * `processFrame(id, f)`: an incomplete frame is counted twice as dropped;
   * a complete one is joined, counted and decoded. Either way its entry goes.
   */
  function Finish(v: VideoPath, id: nat, f: PendingFrame, nowMs: real, rejects: set<int>): VideoPath
  {
    if !Complete(f.parts) then
      var v1 := VideoDrop(v);
      v1.(stats := v1.stats.(framesDropped := v1.stats.framesDropped + 1), chunks := Remove(v.chunks, id))
    else
      var v1 := Completed(v, id, f.isKey);
      var v2 := FirstFrame(Decode(v1, FrameData(Assembled(f.parts), f.capTs, f.isKey, f.arrivalMs), nowMs, rejects));
      v2.(chunks := Remove(v2.chunks, id))
  }

  // ---------------------------------------------------------------------
  // The expiry sweep
  // ---------------------------------------------------------------------

  /** Older than the timeout and still incomplete. */
  predicate Overdue(f: PendingFrame, nowMs: real)
  {
    nowMs - f.arrivalMs > FRAME_TIMEOUT_MS && f.received < f.total
  }

  /** `tryRecoverFrameGroup`'s effect on the frame: recovered if possible, else as it was. */
  function RecoverOrKeep(f: PendingFrame, g: nat): (r: PendingFrame)
    requires Shaped(f)
    ensures Shaped(r)
  {
    if Recover(f, g).Some? then RecoverOnce(f, g); Recover(f, g).value else f
  }

  /** The first n parity groups tried in turn. */
  function RecoverEach(f: PendingFrame, gs: seq<nat>, n: nat): (r: PendingFrame)
    requires Shaped(f) && n <= |gs|
    ensures Shaped(r)
  {
    if n == 0 then f else RecoverOrKeep(RecoverEach(f, gs, n - 1), gs[n - 1])
  }

  /** The last attempt on an overdue frame: every parity group, in the order it arrived. */
  function Salvage(f: PendingFrame): (r: PendingFrame)
    requires Shaped(f)
    ensures Shaped(r)
  {
    if |f.fecParts| > 0 then RecoverEach(f, f.fecOrder, |f.fecOrder|) else f
  }

  /** The frame's entry deleted, and the frame counted as dropped and as timed out. */
  function TimedOut(v: VideoPath, id: nat): VideoPath
  {
    var v1 := VideoDrop(v);
    v1.(chunks := Remove(v.chunks, id), stats := v1.stats.(framesTimeout := v1.stats.framesTimeout + 1))
  }

  /** A frame given up: dropped, deleted, timed out; a lost keyframe is asked for again. */
  function Expire(v: VideoPath, id: nat, f: PendingFrame, nowMs: real): VideoPath
  {
    var v2 := TimedOut(v, id);
    if f.isKey && f.received > 0 && !v.needKey then RequestKey(v2.(needKey := true), nowMs) else v2
  }

  /** One step of the sweep, over the entry e as the iteration sees it. */
  function SweepOne(v: VideoPath, e: Entry, nowMs: real, rejects: set<int>): VideoPath
    requires Shaped(e.frame)
  {
    var f := e.frame;
    if !Overdue(f, nowMs) then v
    else if v.lastFrameId > 0 && e.id < v.lastFrameId then v.(chunks := Remove(v.chunks, e.id))
    else
      var f1 := Salvage(f);
      if |f.fecParts| > 0 && f1.received == f1.total then Finish(v, e.id, f1, nowMs, rejects)
      else Expire(v, e.id, f1, nowMs)
  }

  /** The sweep over the first n entries of the table as it stood when the sweep began. */
  function Sweep(v: VideoPath, es: seq<Entry>, n: nat, nowMs: real, rejects: set<int>): VideoPath
    requires AllShaped(es) && n <= |es|
  {
    if n == 0 then v else SweepOne(Sweep(v, es, n - 1, nowMs, rejects), es[n - 1], nowMs, rejects)
  }

  // ---------------------------------------------------------------------
  // Filing a packet
  // ---------------------------------------------------------------------

  /** The entry a frame id starts with. */
  function NewFrame(h: H.Header, arrivalMs: real): PendingFrame
  {
    PendingFrame(seq(h.totalChunks, _ => None), seq(h.totalChunks, _ => 0), h.totalChunks, 0,
                 h.captureTs, h.encodeUs, arrivalMs, h.frameType == 1, h.frameSize, h.dataChunkSize,
                 Max(1, FecGroupOf(h)), map[], [], 0)
  }

  /** Over capacity: the smallest id goes, unless it is the newcomer's. */
  function Evict(v: VideoPath, newId: nat, nowMs: real): VideoPath
    requires |v.chunks| > 0
  {
    var e := v.chunks[MinAt(v.chunks)];
    if e.id == newId then v
    else
      var v1 := VideoDrop(v).(chunks := Remove(v.chunks, e.id));
      if e.frame.isKey && !v.needKey then RequestKey(v1.(needKey := true), nowMs) else v1
  }

  /** A frame id not yet pending gets an entry at the end of the table. */
  function Track(v: VideoPath, h: H.Header, nowMs: real): VideoPath
  {
    if Has(v.chunks, h.frameId) then v
    else
      var v1 := v.(chunks := v.chunks + [Entry(h.frameId, NewFrame(h, nowMs))]);
      if |v1.chunks| > MAX_FRAMES then Evict(v1, h.frameId, nowMs) else v1
  }

  /**
   * The frame with a chunk or parity stored, and any group it completes
   * recovered; `None` for a slot or group already filled.
   */
  function Store(f: PendingFrame, h: H.Header, data: seq<byte>): Option<PendingFrame>
    requires Shaped(f) && (h.packetType == H.PKT_DATA ==> h.chunkIndex < f.total)
  {
    var ci := h.chunkIndex;
    if h.packetType == H.PKT_DATA then
      if f.parts[ci].Some? then None
      else
        var f1 := f.(parts := f.parts[ci := Some(data)], partSizes := f.partSizes[ci := h.chunkBytes],
                     received := f.received + 1);
        var g := ci / f.fecGroupSize;
        Some(if g in f1.fecParts then RecoverOrKeep(f1, g) else f1)
    else
      if ci in f.fecParts then None
      else Some(RecoverOrKeep(f.(fecParts := f.fecParts[ci := data], fecOrder := f.fecOrder + [ci]), ci))
  }

  /** The frame's metadata disagrees with the packet's. */
  predicate Mismatch(f: PendingFrame, h: H.Header)
  {
    f.total != h.totalChunks || f.frameSize != h.frameSize || f.dataChunkSize != h.dataChunkSize
  }

  /** The packet filed into its frame, which is processed once every chunk is in. */
  function Deliver(v: VideoPath, h: H.Header, data: seq<byte>, nowMs: real, rejects: set<int>): VideoPath
    requires AllShaped(v.chunks) && (h.packetType == H.PKT_DATA ==> h.chunkIndex < h.totalChunks)
  {
    match Find(v.chunks, h.frameId)
    case None => v
    case Some(k) =>
      var f := v.chunks[k].frame;
      if Mismatch(f, h) then VideoDrop(v)
      else
        match Store(f, h, data)
        case None => v
        case Some(f1) =>
          var v1 := v.(chunks := v.chunks[k := Entry(h.frameId, f1)]);
          if f1.received == f1.total then Finish(v1, h.frameId, f1, nowMs, rejects) else v1
  }

  // ---------------------------------------------------------------------
  // handleVideo
  // ---------------------------------------------------------------------

  /** A counted packet of a frame not behind the cursor: the table swept, the frame tracked, the packet filed. */
  function Arrive(v: VideoPath, h: H.Header, data: seq<byte>, nowMs: real, rejects: set<int>): VideoPath
    requires AllShaped(v.chunks) && (h.packetType == H.PKT_DATA ==> h.chunkIndex < h.totalChunks)
  {
    var v2 := Sweep(v, v.chunks, |v.chunks|, nowMs, rejects);
    SweepShaped(v, v.chunks, |v.chunks|, nowMs, rejects);
    var v3 := Track(v2, h, nowMs);
    TrackShaped(v2, h, nowMs);
    Deliver(v3, h, data, nowMs, rejects)
  }

  /**
   * `handleVideo(p)` at time nowMs: a malformed packet is dropped; a
   * well-formed one is counted and, unless its frame is already behind the
   * cursor, the table is swept, the frame tracked and the packet filed.
   */
  function OnVideo(v: VideoPath, p: seq<byte>, nowMs: real, rejects: set<int>): VideoPath
    requires AllShaped(v.chunks)
  {
    if !WellFormedPacket(p) then VideoDrop(v)
    else
      var h := H.Decode(p);
      var v1 := Counted(v, |p|);
      if Behind(v1, h.frameId) then v1 else Arrive(v1, h, p[HEADER..], nowMs, rejects)
  }

  // ---------------------------------------------------------------------
  // What each step does to the table
  // ---------------------------------------------------------------------

  /** `processFrame` deletes the frame's entry and nothing else. */
  lemma FinishTable(v: VideoPath, id: nat, f: PendingFrame, nowMs: real, rejects: set<int>)
    ensures Finish(v, id, f, nowMs, rejects).chunks == Remove(v.chunks, id)
  {
    if Complete(f.parts) {
      var v1 := Completed(v, id, f.isKey);
      DecodeLeavesTable(v1, FrameData(Assembled(f.parts), f.capTs, f.isKey, f.arrivalMs), nowMs, rejects);
    }
  }

  /** Expiry deletes the frame's entry and nothing else. */
  lemma ExpireTable(v: VideoPath, id: nat, f: PendingFrame, nowMs: real)
    ensures Expire(v, id, f, nowMs).chunks == Remove(v.chunks, id)
  {
    var v1 := VideoDrop(v);
    var v2 := v1.(chunks := Remove(v.chunks, id), stats := v1.stats.(framesTimeout := v1.stats.framesTimeout + 1));
    if f.isKey && f.received > 0 && !v.needKey {
      var w := v2.(needKey := true);
      assert Expire(v, id, f, nowMs) == RequestKey(w, nowMs);
      assert RequestKey(w, nowMs).chunks == w.chunks;
    } else {
      assert Expire(v, id, f, nowMs) == v2;
    }
  }

  /** A sweep step deletes the entry it visits exactly when that frame is overdue. */
  lemma SweepOneTable(v: VideoPath, e: Entry, nowMs: real, rejects: set<int>)
    requires Shaped(e.frame)
    ensures Overdue(e.frame, nowMs) ==> SweepOne(v, e, nowMs, rejects).chunks == Remove(v.chunks, e.id)
    ensures !Overdue(e.frame, nowMs) ==> SweepOne(v, e, nowMs, rejects) == v
  {
    var f := e.frame;
    if Overdue(f, nowMs) && !(v.lastFrameId > 0 && e.id < v.lastFrameId) {
      var f1 := Salvage(f);
      if |f.fecParts| > 0 && f1.received == f1.total {
        FinishTable(v, e.id, f1, nowMs, rejects);
      } else {
        ExpireTable(v, e.id, f1, nowMs);
      }
    }
  }

  /** A sweep step keeps every frame shaped. */
  lemma SweepOneShaped(v: VideoPath, e: Entry, nowMs: real, rejects: set<int>)
    requires Shaped(e.frame) && AllShaped(v.chunks)
    ensures AllShaped(SweepOne(v, e, nowMs, rejects).chunks)
  {
    SweepOneTable(v, e, nowMs, rejects);
    RemoveShaped(v.chunks, e.id);
  }

  /** The sweep keeps every frame shaped. */
  lemma {:induction false} SweepShaped(v: VideoPath, es: seq<Entry>, n: nat, nowMs: real, rejects: set<int>)
    requires AllShaped(v.chunks) && AllShaped(es) && n <= |es|
    ensures AllShaped(Sweep(v, es, n, nowMs, rejects).chunks)
  {
    if n > 0 {
      SweepShaped(v, es, n - 1, nowMs, rejects);
      SweepOneShaped(Sweep(v, es, n - 1, nowMs, rejects), es[n - 1], nowMs, rejects);
    }
  }

  /** Eviction deletes the entry with the smallest id unless that is the newcomer's. */
  lemma EvictTable(v: VideoPath, newId: nat, nowMs: real)
    requires |v.chunks| > 0
    ensures var m := v.chunks[MinAt(v.chunks)].id;
      Evict(v, newId, nowMs).chunks == if m == newId then v.chunks else Remove(v.chunks, m)
  {
    var e := v.chunks[MinAt(v.chunks)];
    if e.id != newId {
      var v1 := VideoDrop(v).(chunks := Remove(v.chunks, e.id));
      if e.frame.isKey && !v.needKey {
        var w := v1.(needKey := true);
        assert Evict(v, newId, nowMs) == RequestKey(w, nowMs);
        assert RequestKey(w, nowMs).chunks == w.chunks;
      } else {
        assert Evict(v, newId, nowMs) == v1;
      }
    }
  }

  /** The table after `trackFrame`: a new id is appended, and the smallest id evicted past capacity. */
  function Tracked(t: seq<Entry>, h: H.Header, nowMs: real): seq<Entry>
  {
    if Has(t, h.frameId) then t
    else
      var es := t + [Entry(h.frameId, NewFrame(h, nowMs))];
      var m := es[MinAt(es)].id;
      if |es| > MAX_FRAMES && m != h.frameId then Remove(es, m) else es
  }

  /** Tracking's effect on the table depends on the table alone. */
  lemma TrackChunks(v: VideoPath, h: H.Header, nowMs: real)
    ensures Track(v, h, nowMs).chunks == Tracked(v.chunks, h, nowMs)
  {
    if !Has(v.chunks, h.frameId) {
      var es := v.chunks + [Entry(h.frameId, NewFrame(h, nowMs))];
      if |es| > MAX_FRAMES {
        EvictTable(v.(chunks := es), h.frameId, nowMs);
      }
    }
  }

  /** A new frame has a slot per chunk and nothing filled. */
  lemma NewFrameOk(h: H.Header, arrivalMs: real)
    ensures Consistent(NewFrame(h, arrivalMs)) && NewFrame(h, arrivalMs).received == 0
  {
    var f := NewFrame(h, arrivalMs);
    FilledAll(f.parts);
    FilledNone(f.parts);
  }

  /** No slot filled, none counted. */
  lemma {:induction false} FilledNone(parts: seq<Option<seq<byte>>>)
    requires forall i :: 0 <= i < |parts| ==> parts[i].None?
    ensures Filled(parts) == 0
  {
    if |parts| > 0 {
      FilledNone(parts[..|parts| - 1]);
    }
  }

  /** After tracking, the packet's frame is pending and every frame is shaped. */
  lemma TrackedShaped(t: seq<Entry>, h: H.Header, nowMs: real)
    requires AllShaped(t)
    ensures AllShaped(Tracked(t, h, nowMs)) && Has(Tracked(t, h, nowMs), h.frameId)
  {
    if !Has(t, h.frameId) {
      var e := Entry(h.frameId, NewFrame(h, nowMs));
      var es := t + [e];
      NewFrameOk(h, nowMs);
      assert AllShaped(es);
      assert es[|es| - 1] == e;
      var m := es[MinAt(es)].id;
      if |es| > MAX_FRAMES && m != h.frameId {
        RemoveShaped(es, m);
        assert e in Remove(es, m);
      }
    }
  }

  lemma TrackShaped(v: VideoPath, h: H.Header, nowMs: real)
    requires AllShaped(v.chunks)
    ensures AllShaped(Track(v, h, nowMs).chunks) && Has(Track(v, h, nowMs).chunks, h.frameId)
  {
    TrackChunks(v, h, nowMs);
    TrackedShaped(v.chunks, h, nowMs);
  }

  // ---------------------------------------------------------------------
  // The table's invariant
  // ---------------------------------------------------------------------

  /** Recovery keeps a frame's bookkeeping right. */
  lemma RecoverOrKeepOk(f: PendingFrame, g: nat)
    requires Consistent(f)
    ensures Consistent(RecoverOrKeep(f, g))
  {
    if Recover(f, g).Some? {
      RecoverCounts(f, g);
    }
  }

  lemma {:induction false} RecoverEachOk(f: PendingFrame, gs: seq<nat>, n: nat)
    requires Consistent(f) && n <= |gs|
    ensures Consistent(RecoverEach(f, gs, n))
  {
    if n > 0 {
      RecoverEachOk(f, gs, n - 1);
      RecoverOrKeepOk(RecoverEach(f, gs, n - 1), gs[n - 1]);
    }
  }

  /** Filling an empty slot counts it. */
  lemma FillOk(f: PendingFrame, ci: nat, data: seq<byte>, size: nat)
    requires Consistent(f) && ci < f.total && f.parts[ci].None?
    ensures Consistent(f.(parts := f.parts[ci := Some(data)], partSizes := f.partSizes[ci := size],
                          received := f.received + 1))
  {
    FilledUpdate(f.parts, ci, Some(data));
  }

  /** Storing a chunk keeps the frame's bookkeeping right. */
  lemma StoreDataOk(f: PendingFrame, h: H.Header, data: seq<byte>)
    requires Consistent(f) && h.packetType == H.PKT_DATA && h.chunkIndex < f.total
    requires f.parts[h.chunkIndex].None?
    ensures Store(f, h, data).Some? && Consistent(Store(f, h, data).value)
  {
    var ci := h.chunkIndex;
    var f1 := f.(parts := f.parts[ci := Some(data)], partSizes := f.partSizes[ci := h.chunkBytes],
                 received := f.received + 1);
    FillOk(f, ci, data, h.chunkBytes);
    var g := ci / f.fecGroupSize;
    if g in f1.fecParts {
      RecoverOrKeepOk(f1, g);
      assert Store(f, h, data) == Some(RecoverOrKeep(f1, g));
    } else {
      assert Store(f, h, data) == Some(f1);
    }
  }

  /** Adding a parity of a new group records it once, in arrival order. */
  lemma AddParityOk(f: PendingFrame, ci: nat, data: seq<byte>)
    requires Consistent(f) && ci !in f.fecParts
    ensures Consistent(f.(fecParts := f.fecParts[ci := data], fecOrder := f.fecOrder + [ci]))
  {
    var o := f.fecOrder + [ci];
    forall x
      ensures x in f.fecParts.Keys + {ci} <==> x in Elems(o)
    {
      assert x in o <==> x in f.fecOrder || x == ci;
    }
    forall a, b | 0 <= a < b < |o|
      ensures o[a] != o[b]
    {
      if b == |f.fecOrder| {
        assert o[a] == f.fecOrder[a];
      }
    }
  }

  /** Storing a parity keeps the frame's bookkeeping right. */
  lemma StoreFecOk(f: PendingFrame, h: H.Header, data: seq<byte>)
    requires Consistent(f) && h.packetType != H.PKT_DATA && h.chunkIndex !in f.fecParts
    ensures Store(f, h, data).Some? && Consistent(Store(f, h, data).value)
  {
    var ci := h.chunkIndex;
    var f1 := f.(fecParts := f.fecParts[ci := data], fecOrder := f.fecOrder + [ci]);
    AddParityOk(f, ci, data);
    RecoverOrKeepOk(f1, ci);
    assert Store(f, h, data) == Some(RecoverOrKeep(f1, ci));
  }

  /** Storing a chunk or a parity keeps the frame's bookkeeping right. */
  lemma StoreOk(f: PendingFrame, h: H.Header, data: seq<byte>)
    requires Consistent(f) && (h.packetType == H.PKT_DATA ==> h.chunkIndex < f.total)
    requires Store(f, h, data).Some?
    ensures Consistent(Store(f, h, data).value)
  {
    if h.packetType == H.PKT_DATA {
      StoreDataOk(f, h, data);
    } else {
      StoreFecOk(f, h, data);
    }
  }

  lemma FinishOk(v: VideoPath, id: nat, f: PendingFrame, nowMs: real, rejects: set<int>)
    requires TableOk(v.chunks)
    ensures TableOk(Finish(v, id, f, nowMs, rejects).chunks)
  {
    FinishTable(v, id, f, nowMs, rejects);
    RemoveOk(v.chunks, id);
  }

  lemma SweepOneOk(v: VideoPath, e: Entry, nowMs: real, rejects: set<int>)
    requires Shaped(e.frame) && TableOk(v.chunks)
    ensures TableOk(SweepOne(v, e, nowMs, rejects).chunks)
  {
    SweepOneTable(v, e, nowMs, rejects);
    RemoveOk(v.chunks, e.id);
  }

  lemma {:induction false} SweepOk(v: VideoPath, es: seq<Entry>, n: nat, nowMs: real, rejects: set<int>)
    requires TableOk(v.chunks) && AllShaped(es) && n <= |es|
    ensures TableOk(Sweep(v, es, n, nowMs, rejects).chunks)
  {
    if n > 0 {
      SweepOk(v, es, n - 1, nowMs, rejects);
      SweepOneOk(Sweep(v, es, n - 1, nowMs, rejects), es[n - 1], nowMs, rejects);
    }
  }

  lemma TrackedOk(t: seq<Entry>, h: H.Header, nowMs: real)
    requires TableOk(t)
    ensures TableOk(Tracked(t, h, nowMs))
  {
    if !Has(t, h.frameId) {
      var e := Entry(h.frameId, NewFrame(h, nowMs));
      var es := t + [e];
      NewFrameOk(h, nowMs);
      assert TableOk(es);
      RemoveOk(es, es[MinAt(es)].id);
    }
  }

  lemma TrackOk(v: VideoPath, h: H.Header, nowMs: real)
    requires TableOk(v.chunks)
    ensures TableOk(Track(v, h, nowMs).chunks)
  {
    TrackChunks(v, h, nowMs);
    TrackedOk(v.chunks, h, nowMs);
  }

  /** The entry that took the chunk goes back under its id, and leaves again when the frame is done. */
  lemma StoredOk(v: VideoPath, h: H.Header, data: seq<byte>, nowMs: real, rejects: set<int>, k: nat)
    requires TableOk(v.chunks) && AllShaped(v.chunks) && (h.packetType == H.PKT_DATA ==> h.chunkIndex < h.totalChunks)
    requires Find(v.chunks, h.frameId) == Some(k) && !Mismatch(v.chunks[k].frame, h)
    requires Store(v.chunks[k].frame, h, data).Some?
    ensures TableOk(Deliver(v, h, data, nowMs, rejects).chunks)
  {
    var f := v.chunks[k].frame;
    var f1 := Store(f, h, data).value;
    StoreOk(f, h, data);
    var v1 := v.(chunks := v.chunks[k := Entry(h.frameId, f1)]);
    ReplaceOk(v.chunks, k, Entry(h.frameId, f1));
    if f1.received == f1.total {
      assert Deliver(v, h, data, nowMs, rejects) == Finish(v1, h.frameId, f1, nowMs, rejects);
      FinishOk(v1, h.frameId, f1, nowMs, rejects);
    } else {
      assert Deliver(v, h, data, nowMs, rejects) == v1;
    }
  }

  /** A packet that changes no entry leaves the table as it was. */
  lemma UnstoredOk(v: VideoPath, h: H.Header, data: seq<byte>, nowMs: real, rejects: set<int>)
    requires TableOk(v.chunks) && AllShaped(v.chunks) && (h.packetType == H.PKT_DATA ==> h.chunkIndex < h.totalChunks)
    requires match Find(v.chunks, h.frameId)
      case None => true
      case Some(k) => Mismatch(v.chunks[k].frame, h) || Store(v.chunks[k].frame, h, data).None?
    ensures Deliver(v, h, data, nowMs, rejects).chunks == v.chunks
  {
    match Find(v.chunks, h.frameId)
    case None =>
      assert Deliver(v, h, data, nowMs, rejects) == v;
    case Some(k) =>
      if Mismatch(v.chunks[k].frame, h) {
        assert Deliver(v, h, data, nowMs, rejects) == VideoDrop(v);
      } else {
        assert Deliver(v, h, data, nowMs, rejects) == v;
      }
  }

  lemma DeliverOk(v: VideoPath, h: H.Header, data: seq<byte>, nowMs: real, rejects: set<int>)
    requires TableOk(v.chunks) && (h.packetType == H.PKT_DATA ==> h.chunkIndex < h.totalChunks)
    ensures AllShaped(v.chunks) && TableOk(Deliver(v, h, data, nowMs, rejects).chunks)
  {
    OkShaped(v.chunks);
    var found := Find(v.chunks, h.frameId);
    if found.Some? && !Mismatch(v.chunks[found.value].frame, h) && Store(v.chunks[found.value].frame, h, data).Some? {
      StoredOk(v, h, data, nowMs, rejects, found.value);
    } else {
      UnstoredOk(v, h, data, nowMs, rejects);
    }
  }

  /** A packet that passes the checks: sweep, track, deliver, each keeping the invariant. */
  lemma ProcessedOk(v: VideoPath, p: seq<byte>, nowMs: real, rejects: set<int>)
    requires TableOk(v.chunks)
    ensures AllShaped(v.chunks)
    ensures WellFormedPacket(p) && !Behind(Counted(v, |p|), H.Decode(p).frameId) ==>
      TableOk(OnVideo(v, p, nowMs, rejects).chunks)
  {
    OkShaped(v.chunks);
    if WellFormedPacket(p) && !Behind(Counted(v, |p|), H.Decode(p).frameId) {
      var h := H.Decode(p);
      var v1 := Counted(v, |p|);
      var v2 := Sweep(v1, v1.chunks, |v1.chunks|, nowMs, rejects);
      SweepOk(v1, v1.chunks, |v1.chunks|, nowMs, rejects);
      var v3 := Track(v2, h, nowMs);
      TrackOk(v2, h, nowMs);
      assert OnVideo(v, p, nowMs, rejects) == Deliver(v3, h, p[HEADER..], nowMs, rejects);
      DeliverOk(v3, h, p[HEADER..], nowMs, rejects);
    }
  }

  /** A packet too short or with a bad header is counted as dropped and nothing else happens. */
  lemma MalformedDropped(v: VideoPath, p: seq<byte>, nowMs: real, rejects: set<int>)
    requires AllShaped(v.chunks) && !WellFormedPacket(p)
    ensures OnVideo(v, p, nowMs, rejects) == VideoDrop(v)
  {
  }

  /** A packet of a frame older than the last one completed is counted and otherwise ignored. */
  lemma StaleCounted(v: VideoPath, p: seq<byte>, nowMs: real, rejects: set<int>)
    requires AllShaped(v.chunks) && WellFormedPacket(p) && Behind(Counted(v, |p|), H.Decode(p).frameId)
    ensures OnVideo(v, p, nowMs, rejects) == Counted(v, |p|)
  {
  }

  /** A well-formed packet of a frame ahead of the cursor is counted, then filed. */
  lemma FreshArrives(v: VideoPath, p: seq<byte>, nowMs: real, rejects: set<int>)
    requires AllShaped(v.chunks) && WellFormedPacket(p) && !Behind(Counted(v, |p|), H.Decode(p).frameId)
    ensures var h := H.Decode(p);
      h.packetType == H.PKT_DATA ==> h.chunkIndex < h.totalChunks
    ensures OnVideo(v, p, nowMs, rejects) == Arrive(Counted(v, |p|), H.Decode(p), p[HEADER..], nowMs, rejects)
  {
  }

  lemma MalformedOk(v: VideoPath, p: seq<byte>, nowMs: real, rejects: set<int>)
    requires TableOk(v.chunks)
    ensures AllShaped(v.chunks)
    ensures !WellFormedPacket(p) ==> TableOk(OnVideo(v, p, nowMs, rejects).chunks)
  {
    OkShaped(v.chunks);
    if !WellFormedPacket(p) {
      MalformedDropped(v, p, nowMs, rejects);
    }
  }

  lemma StaleOk(v: VideoPath, p: seq<byte>, nowMs: real, rejects: set<int>)
    requires TableOk(v.chunks)
    ensures AllShaped(v.chunks)
    ensures WellFormedPacket(p) && Behind(Counted(v, |p|), H.Decode(p).frameId) ==>
      TableOk(OnVideo(v, p, nowMs, rejects).chunks)
  {
    OkShaped(v.chunks);
    if WellFormedPacket(p) && Behind(Counted(v, |p|), H.Decode(p).frameId) {
      StaleCounted(v, p, nowMs, rejects);
    }
  }

  /** `handleVideo` keeps the table's invariant. */
  lemma OnVideoOk(v: VideoPath, p: seq<byte>, nowMs: real, rejects: set<int>)
    requires TableOk(v.chunks)
    ensures AllShaped(v.chunks) && TableOk(OnVideo(v, p, nowMs, rejects).chunks)
  {
    MalformedOk(v, p, nowMs, rejects);
    StaleOk(v, p, nowMs, rejects);
    ProcessedOk(v, p, nowMs, rejects);
  }

  /** A frame whose count reached its total has every part (so `processFrame` never finds a gap here). */
  lemma CountedComplete(f: PendingFrame)
    requires Consistent(f) && f.received == f.total
    ensures Complete(f.parts)
  {
    FilledAll(f.parts);
  }

  // ---------------------------------------------------------------------
  // The sweep
  // ---------------------------------------------------------------------

  /** No frame among the first n visited that was overdue is still in the table. */
  predicate Cleared(es: seq<Entry>, n: nat, chunks: seq<Entry>, nowMs: real)
    requires n <= |es|
  {
    forall k :: 0 <= k < n && Overdue(es[k].frame, nowMs) ==> !Has(chunks, es[k].id)
  }

  /** Every entry of a is one of b. */
  predicate Within(a: seq<Entry>, b: seq<Entry>)
  {
    forall e :: e in a ==> e in b
  }

  lemma ClearedStep(es: seq<Entry>, n: nat, w: seq<Entry>, r: seq<Entry>, t: seq<Entry>, nowMs: real)
    requires 0 < n <= |es| && Cleared(es, n - 1, w, nowMs) && Within(w, t)
    requires r == if Overdue(es[n - 1].frame, nowMs) then Remove(w, es[n - 1].id) else w
    ensures Cleared(es, n, r, nowMs) && Within(r, t)
  {
    if Overdue(es[n - 1].frame, nowMs) {
      forall k | 0 <= k < n && Overdue(es[k].frame, nowMs)
        ensures !Has(r, es[k].id)
      {
        RemoveHas(w, es[n - 1].id, es[k].id);
      }
    }
  }

  /** The table after visiting the first n entries of es: each overdue one is deleted. */
  function Swept(t: seq<Entry>, es: seq<Entry>, n: nat, nowMs: real): seq<Entry>
    requires n <= |es|
  {
    if n == 0 then t
    else
      var w := Swept(t, es, n - 1, nowMs);
      if Overdue(es[n - 1].frame, nowMs) then Remove(w, es[n - 1].id) else w
  }

  /** The sweep's effect on the table depends on nothing but which frames are overdue. */
  lemma {:induction false} SweepChunks(v: VideoPath, es: seq<Entry>, n: nat, nowMs: real, rejects: set<int>)
    requires AllShaped(es) && n <= |es|
    ensures Sweep(v, es, n, nowMs, rejects).chunks == Swept(v.chunks, es, n, nowMs)
  {
    if n > 0 {
      SweepChunks(v, es, n - 1, nowMs, rejects);
      SweepOneTable(Sweep(v, es, n - 1, nowMs, rejects), es[n - 1], nowMs, rejects);
    }
  }

  lemma {:induction false} SweptClears(t: seq<Entry>, es: seq<Entry>, n: nat, nowMs: real)
    requires n <= |es|
    ensures Within(Swept(t, es, n, nowMs), t) && Cleared(es, n, Swept(t, es, n, nowMs), nowMs)
  {
    if n > 0 {
      SweptClears(t, es, n - 1, nowMs);
      ClearedStep(es, n, Swept(t, es, n - 1, nowMs), Swept(t, es, n, nowMs), t, nowMs);
    }
  }

  /**
   * After the sweep no frame that was overdue is pending any more, and
   * no entry was added.
   */
  lemma SweepClears(v: VideoPath, es: seq<Entry>, n: nat, nowMs: real, rejects: set<int>)
    requires AllShaped(es) && n <= |es|
    ensures Within(Sweep(v, es, n, nowMs, rejects).chunks, v.chunks)
    ensures Cleared(es, n, Sweep(v, es, n, nowMs, rejects).chunks, nowMs)
  {
    SweepChunks(v, es, n, nowMs, rejects);
    SweptClears(v.chunks, es, n, nowMs);
  }
}
