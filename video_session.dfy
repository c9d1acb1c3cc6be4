/**
 * `handleVideo`, `processFrame` and the expiry sweep of
 * client/js/network.js as methods on the client session, each proved to
 * leave the session's video state as the matching function of
 * NetworkVideo says.
 */
module VideoSession {
  import opened Bytes
  import opened ClientState
  import opened KeyRequests
  import opened Media
  import opened NetworkFec
  import opened FrameTable
  import opened NetworkVideo
  import H = VideoHeader

  // ---------------------------------------------------------------------
  // Joining the parts
  // ---------------------------------------------------------------------

  lemma ConcatStep(ps: seq<seq<byte>>, i: nat)
    requires i < |ps|
    ensures Concat(ps[..i + 1]) == Concat(ps[..i]) + ps[i]
  {
    assert ps[..i + 1][..i] == ps[..i];
  }

  lemma {:induction false} ConcatGrows(ps: seq<seq<byte>>, i: nat, j: nat)
    requires i <= j <= |ps|
    ensures |Concat(ps[..i])| <= |Concat(ps[..j])|
    decreases j - i
  {
    if i < j {
      ConcatGrows(ps, i, j - 1);
      ConcatStep(ps, j - 1);
    }
  }

  /** `combined.set(p, offset)`. */
  method CopyAt(a: array<byte>, p: seq<byte>, offset: nat)
    requires offset + |p| <= a.Length
    modifies a
    ensures a[..offset + |p|] == old(a[..offset]) + p
  {
    for j := 0 to |p|
      invariant a[..offset + j] == old(a[..offset]) + p[..j]
    {
      a[offset + j] := p[j];
      assert p[..j + 1] == p[..j] + [p[j]];
      assert a[..offset + j + 1] == a[..offset + j] + [p[j]];
    }
  }

  /** The total size the reducer adds up. */
  method TotalSize(ps: seq<seq<byte>>) returns (total: nat)
    ensures total == |Concat(ps)|
  {
    total := 0;
    for i := 0 to |ps|
      invariant total == |Concat(ps[..i])|
    {
      ConcatStep(ps, i);
      total := total + |ps[i]|;
    }
    assert ps[..|ps|] == ps;
  }

  /** The buffer `processFrame` hands to the decoder: a one-chunk frame's only part, else every part in turn. */
  method Assemble(parts: seq<Option<seq<byte>>>) returns (buf: seq<byte>)
    requires Complete(parts)
    ensures buf == Assembled(parts)
  {
    var ps := Payloads(parts);
    if |parts| == 1 {
      assert ps[..0] == [];
      ConcatStep(ps, 0);
      assert ps[..1] == ps;
      return ps[0];
    }
    var totalSize := TotalSize(ps);
    var combined := new byte[totalSize](_ => 0);
    var offset := 0;
    assert ps[..|ps|] == ps;
    for i := 0 to |ps|
      invariant offset == |Concat(ps[..i])| <= combined.Length
      invariant combined[..offset] == Concat(ps[..i])
    {
      ConcatStep(ps, i);
      ConcatGrows(ps, i + 1, |ps|);
      CopyAt(combined, ps[i], offset);
      offset := offset + |ps[i]|;
    }
    assert combined[..] == combined[..offset];
    buf := combined[..];
  }

  // ---------------------------------------------------------------------
  // processFrame
  // ---------------------------------------------------------------------

  /** The counters and the cursor `processFrame` moves for a complete frame. */
  method CountComplete(s: Session, id: nat, isKey: bool)
    modifies s`stats, s`lastFrameId
    ensures s.View() == Completed(old(s.View()), id, isKey)
  {
    s.stats := s.stats.(framesComplete := s.stats.framesComplete + 1);
    if isKey {
      s.stats := s.stats.(keyframesReceived := s.stats.keyframesReceived + 1);
    }
    if id > s.lastFrameId {
      s.lastFrameId := id;
    }
  }

  /** The first frame ends the connection wait. */
  method EndWait(s: Session)
    modifies s`waitingFirstFrame, s`hasConnection
    ensures s.View() == FirstFrame(old(s.View()))
  {
    if s.waitingFirstFrame {
      s.waitingFirstFrame := false;
      s.hasConnection := true;
    }
  }

  /** A frame's entry deleted, nothing else touched. */
  method ClearEntry(s: Session, id: nat)
    modifies s`chunks
    ensures s.View() == old(s.View()).(chunks := Remove(old(s.chunks), id))
  {
    s.chunks := Remove(s.chunks, id);
  }

  /** A complete frame joined, counted and decoded. */
  method DecodeComplete(s: Session, id: nat, f: PendingFrame, nowMs: real, rejects: set<int>)
    requires Complete(f.parts)
    modifies s`stats, s`lastFrameId, s`ctrlSent, s`lastKeyReqAt, s`keyReqTimer, s`kfRetry, s`reinit,
             s`frameMeta, s`lastCaptureTs, s`decoded, s`needKey, s`ready, s`waitingFirstFrame, s`hasConnection
    ensures s.View() == FirstFrame(Decode(Completed(old(s.View()), id, f.isKey),
                                          FrameData(Assembled(f.parts), f.capTs, f.isKey, f.arrivalMs), nowMs, rejects))
  {
    var buffer := Assemble(f.parts);
    CountComplete(s, id, f.isKey);
    DecodeFrame(s, FrameData(buffer, f.capTs, f.isKey, f.arrivalMs), nowMs, rejects);
    EndWait(s);
  }

  /** `processFrame(id, f)`. */
  method ProcessFrame(s: Session, id: nat, f: PendingFrame, nowMs: real, rejects: set<int>)
    modifies s`chunks, s`stats, s`lastFrameId, s`ctrlSent, s`lastKeyReqAt, s`keyReqTimer, s`kfRetry, s`reinit,
             s`frameMeta, s`lastCaptureTs, s`decoded, s`needKey, s`ready, s`waitingFirstFrame, s`hasConnection
    ensures s.View() == Finish(old(s.View()), id, f, nowMs, rejects)
  {
    if !Complete(f.parts) {
      DropEntry(s, id);
      s.stats := s.stats.(framesDropped := s.stats.framesDropped + 1);
      return;
    }
    DecodeComplete(s, id, f, nowMs, rejects);
    ClearEntry(s, id);
  }

  // ---------------------------------------------------------------------
  // The expiry sweep
  // ---------------------------------------------------------------------

  /** `for (const groupIndex of frame.fecParts.keys()) tryRecoverFrameGroup(...)`. */
  method RecoverGroups(f: PendingFrame) returns (r: PendingFrame)
    requires Shaped(f)
    ensures r == RecoverEach(f, f.fecOrder, |f.fecOrder|)
  {
    r := f;
    for i := 0 to |f.fecOrder|
      invariant Shaped(r) && r == RecoverEach(f, f.fecOrder, i)
    {
      var ok;
      ok, r := TryRecoverFrameGroup(r, f.fecOrder[i]);
    }
  }

  /** A frame's entry deleted and the frame counted as dropped. */
  method DropEntry(s: Session, id: nat)
    modifies s`stats, s`chunks
    ensures s.View() == VideoDrop(old(s.View())).(chunks := Remove(old(s.chunks), id))
  {
    s.LogVideoDrop();
    s.chunks := Remove(s.chunks, id);
  }

  /** A lost keyframe: `S.needKey = true; requestKeyframe()`. */
  method AskKey(s: Session, nowMs: real)
    modifies s`needKey, s`ctrlSent, s`lastKeyReqAt, s`keyReqTimer
    ensures s.View() == RequestKey(old(s.View()).(needKey := true), nowMs)
  {
    s.needKey := true;
    var _ := RequestKeyframe(s, nowMs);
  }

  /** A frame's entry deleted, and the frame counted as dropped and as timed out. */
  method TimeOut(s: Session, id: nat)
    modifies s`stats, s`chunks
    ensures s.View() == TimedOut(old(s.View()), id)
  {
    s.LogVideoDrop();
    s.chunks := Remove(s.chunks, id);
    s.stats := s.stats.(framesTimeout := s.stats.framesTimeout + 1);
  }

  /** A frame given up on: dropped, deleted, timed out, and a lost keyframe asked for. */
  method ExpireFrame(s: Session, id: nat, f: PendingFrame, nowMs: real)
    modifies s`stats, s`chunks, s`needKey, s`ctrlSent, s`lastKeyReqAt, s`keyReqTimer
    ensures s.View() == Expire(old(s.View()), id, f, nowMs)
  {
    TimeOut(s, id);
    if f.isKey && f.received > 0 && !s.needKey {
      AskKey(s, nowMs);
    }
  }

  /** One pass of the sweep's loop body, over the entry as the iteration sees it. */
  method SweepEntry(s: Session, e: Entry, nowMs: real, rejects: set<int>)
    requires Shaped(e.frame)
    modifies s`chunks, s`stats, s`lastFrameId, s`ctrlSent, s`lastKeyReqAt, s`keyReqTimer, s`kfRetry, s`reinit,
             s`frameMeta, s`lastCaptureTs, s`decoded, s`needKey, s`ready, s`waitingFirstFrame, s`hasConnection
    ensures s.View() == SweepOne(old(s.View()), e, nowMs, rejects)
  {
    var f := e.frame;
    if !(nowMs - f.arrivalMs > FRAME_TIMEOUT_MS && f.received < f.total) {
      return;
    }
    if s.lastFrameId > 0 && e.id < s.lastFrameId {
      s.chunks := Remove(s.chunks, e.id);
      return;
    }
    var f1 := f;
    if |f.fecParts| > 0 {
      f1 := RecoverGroups(f);
      if f1.received == f1.total {
        ProcessFrame(s, e.id, f1, nowMs, rejects);
        return;
      }
    }
    ExpireFrame(s, e.id, f1, nowMs);
  }

  /** The sweep over the table as it stood when the packet arrived. */
  method SweepTimeouts(s: Session, nowMs: real, rejects: set<int>)
    requires AllShaped(s.chunks)
    modifies s`chunks, s`stats, s`lastFrameId, s`ctrlSent, s`lastKeyReqAt, s`keyReqTimer, s`kfRetry, s`reinit,
             s`frameMeta, s`lastCaptureTs, s`decoded, s`needKey, s`ready, s`waitingFirstFrame, s`hasConnection
    ensures s.View() == Sweep(old(s.View()), old(s.chunks), |old(s.chunks)|, nowMs, rejects)
  {
    ghost var v := s.View();
    var es := s.chunks;
    for i := 0 to |es|
      invariant s.View() == Sweep(v, es, i, nowMs, rejects)
    {
      SweepEntry(s, es[i], nowMs, rejects);
    }
  }

  // ---------------------------------------------------------------------
  // Tracking and filing
  // ---------------------------------------------------------------------

  /** Over capacity: the smallest id goes unless it is the newcomer's. */
  method EvictOldest(s: Session, newId: nat, nowMs: real)
    requires |s.chunks| > 0
    modifies s`stats, s`chunks, s`needKey, s`ctrlSent, s`lastKeyReqAt, s`keyReqTimer
    ensures s.View() == Evict(old(s.View()), newId, nowMs)
  {
    var oldest := s.chunks[MinAt(s.chunks)];
    if oldest.id != newId {
      DropEntry(s, oldest.id);
      if oldest.frame.isKey && !s.needKey {
        AskKey(s, nowMs);
      }
    }
  }

  /** A frame id not yet pending gets its entry, and the table is trimmed. */
  method TrackFrame(s: Session, h: H.Header, nowMs: real)
    modifies s`stats, s`chunks, s`needKey, s`ctrlSent, s`lastKeyReqAt, s`keyReqTimer
    ensures s.View() == Track(old(s.View()), h, nowMs)
  {
    if Find(s.chunks, h.frameId).None? {
      s.chunks := s.chunks + [Entry(h.frameId, NewFrame(h, nowMs))];
      if |s.chunks| > MAX_FRAMES {
        EvictOldest(s, h.frameId, nowMs);
      }
    }
  }

  /** The chunk or parity stored in the frame, and the group it belongs to tried. */
  method StoreChunk(f: PendingFrame, h: H.Header, data: seq<byte>) returns (r: Option<PendingFrame>)
    requires Shaped(f) && (h.packetType == H.PKT_DATA ==> h.chunkIndex < f.total)
    ensures r == Store(f, h, data)
  {
    var ci := h.chunkIndex;
    var ok, f1;
    if h.packetType == H.PKT_DATA {
      if f.parts[ci].Some? {
        return None;
      }
      f1 := f.(parts := f.parts[ci := Some(data)], partSizes := f.partSizes[ci := h.chunkBytes],
               received := f.received + 1);
      var groupIndex := ci / f1.fecGroupSize;
      if groupIndex in f1.fecParts {
        ok, f1 := TryRecoverFrameGroup(f1, groupIndex);
      }
    } else {
      if ci in f.fecParts {
        return None;
      }
      f1 := f.(fecParts := f.fecParts[ci := data], fecOrder := f.fecOrder + [ci]);
      ok, f1 := TryRecoverFrameGroup(f1, ci);
    }
    r := Some(f1);
  }

  /** The entry at k replaced, nothing else touched. */
  method PutEntry(s: Session, k: nat, e: Entry)
    requires k < |s.chunks|
    modifies s`chunks
    ensures s.View() == old(s.View()).(chunks := old(s.chunks)[k := e])
  {
    s.chunks := s.chunks[k := e];
  }

  /** The packet filed into its frame, which is processed once every chunk is in. */
  method DeliverChunk(s: Session, h: H.Header, data: seq<byte>, nowMs: real, rejects: set<int>)
    requires AllShaped(s.chunks) && (h.packetType == H.PKT_DATA ==> h.chunkIndex < h.totalChunks)
    modifies s`chunks, s`stats, s`lastFrameId, s`ctrlSent, s`lastKeyReqAt, s`keyReqTimer, s`kfRetry, s`reinit,
             s`frameMeta, s`lastCaptureTs, s`decoded, s`needKey, s`ready, s`waitingFirstFrame, s`hasConnection
    ensures s.View() == Deliver(old(s.View()), h, data, nowMs, rejects)
  {
    var found := Find(s.chunks, h.frameId);
    if found.None? {
      return;
    }
    var k := found.value;
    var f := s.chunks[k].frame;
    if Mismatch(f, h) {
      s.LogVideoDrop();
      return;
    }
    var stored := StoreChunk(f, h, data);
    if stored.None? {
      return;
    }
    var f1 := stored.value;
    PutEntry(s, k, Entry(h.frameId, f1));
    if f1.received == f1.total {
      ProcessFrame(s, h.frameId, f1, nowMs, rejects);
    }
  }

  /** Whether `handleVideo` keeps the packet past its checks. */
  method CheckPacket(p: seq<byte>) returns (ok: bool)
    ensures ok == WellFormedPacket(p)
  {
    if |p| < HEADER {
      return false;
    }
    var h := H.Decode(p);
    if h.totalChunks == 0 || h.captureTs <= 0 || h.frameSize == 0 || h.dataChunkSize == 0 {
      return false;
    }
    if h.packetType == H.PKT_DATA && h.chunkIndex >= h.totalChunks {
      return false;
    }
    if h.packetType != H.PKT_DATA && h.packetType != H.PKT_FEC {
      return false;
    }
    ok := h.chunkBytes == |p| - HEADER;
  }

  /** The sweep, the tracking and the filing, for a counted packet of a frame not behind the cursor. */
  method FileVideo(s: Session, h: H.Header, data: seq<byte>, nowMs: real, rejects: set<int>)
    requires AllShaped(s.chunks) && (h.packetType == H.PKT_DATA ==> h.chunkIndex < h.totalChunks)
    modifies s`chunks, s`stats, s`lastFrameId, s`ctrlSent, s`lastKeyReqAt, s`keyReqTimer, s`kfRetry, s`reinit,
             s`frameMeta, s`lastCaptureTs, s`decoded, s`needKey, s`ready, s`waitingFirstFrame, s`hasConnection
    ensures s.View() == Arrive(old(s.View()), h, data, nowMs, rejects)
  {
    ghost var v := s.View();
    SweepTimeouts(s, nowMs, rejects);
    SweepShaped(v, v.chunks, |v.chunks|, nowMs, rejects);
    ghost var v2 := s.View();
    TrackFrame(s, h, nowMs);
    TrackShaped(v2, h, nowMs);
    DeliverChunk(s, h, data, nowMs, rejects);
  }

  /** `handleVideo(p)` at time nowMs. */
  method HandleVideo(s: Session, p: seq<byte>, nowMs: real, rejects: set<int>)
    requires AllShaped(s.chunks)
    modifies s`chunks, s`stats, s`lastFrameId, s`ctrlSent, s`lastKeyReqAt, s`keyReqTimer, s`kfRetry, s`reinit,
             s`frameMeta, s`lastCaptureTs, s`decoded, s`needKey, s`ready, s`waitingFirstFrame, s`hasConnection,
             s`net
    ensures s.View() == OnVideo(old(s.View()), p, nowMs, rejects)
  {
    ghost var v := s.View();
    var ok := CheckPacket(p);
    if !ok {
      MalformedDropped(v, p, nowMs, rejects);
      s.LogVideoDrop();
      return;
    }
    var h := H.Decode(p);
    var chunkData := p[HEADER..];
    s.RecordPacketOf(|p|, "video");
    s.stats := s.stats.(bytes := s.stats.bytes + |p|);
    assert s.View() == Counted(v, |p|);
    if s.lastFrameId > 0 && h.frameId <= s.lastFrameId {
      StaleCounted(v, p, nowMs, rejects);
      return;
    }
    FreshArrives(v, p, nowMs, rejects);
    FileVideo(s, h, chunkData, nowMs, rejects);
  }
}
