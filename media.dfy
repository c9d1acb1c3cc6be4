/**
 * The video side of build/bin/Release/js/media.js: the gates of
 * `decodeFrame`, the pruning of `S.frameMeta`, the chunk duration, and the
 * keyframe-retry interval (`kfRetryInterval`, the flag `kfRetry`) and the
 * decoder re-initialisation flag (`S.reinit`).
 *
 * The decoder is outside the model: whether `decode` throws for a frame is
 * the parameter `rejects` (the capture times it throws on), and a frame it
 * accepts is recorded in `decoded`.
 */
module Media {
  import opened Bytes
  import opened ClientState
  import opened KeyRequests

  /** A non-key frame is refused once the decoder already holds more than this many. */
  const MAX_DECODE_QUEUE: nat := 6
  /** `S.frameMeta` is pruned once it holds more than `META_MAX` entries, down to `META_KEEP`. */
  const META_MAX: nat := 30
  const META_KEEP: nat := 20
  /** Duration in microseconds given to a frame without a usable predecessor. */
  const DEFAULT_DURATION: nat := 16667

  // ---------------------------------------------------------------------
  // Keyframe retry and decoder re-initialisation
  // ---------------------------------------------------------------------

  /** `startKeyframeRetry`: any running interval is cleared first, so exactly one runs. */
  function StartRetry(v: VideoPath): VideoPath
  {
    v.(kfRetry := true)
  }

  /** `stopKeyframeRetry`. */
  function StopRetry(v: VideoPath): VideoPath
  {
    v.(kfRetry := false)
  }

  /** One tick of the 250 ms retry interval. */
  function RetryTick(v: VideoPath, nowMs: real): VideoPath
    requires v.kfRetry
  {
    if v.needKey && v.ready then RequestKey(v, nowMs)
    else if !v.needKey then StopRetry(v)
    else v
  }

  /**
   * A tick asks for a keyframe exactly while one is needed and the decoder is
   * ready, and the interval keeps running exactly while a keyframe is needed.
   */
  lemma RetryTickFacts(v: VideoPath, nowMs: real)
    requires v.kfRetry
    ensures v.needKey && v.ready ==> RetryTick(v, nowMs) == RequestKey(v, nowMs)
    ensures !(v.needKey && v.ready) ==> RetryTick(v, nowMs).ctrlSent == v.ctrlSent
    ensures RetryTick(v, nowMs).kfRetry <==> v.needKey
    ensures RetryTick(v, nowMs).needKey == v.needKey && RetryTick(v, nowMs).ready == v.ready
  {
  }

  /** `tryReinitDecoder`: the flag is set; a reinit is scheduled only if it was clear. */
  function TryReinit(v: VideoPath): VideoPath
  {
    v.(reinit := true)
  }

  // ---------------------------------------------------------------------
  // Pruning `S.frameMeta`
  // ---------------------------------------------------------------------

  /** m is a key no larger than any other. */
  predicate IsLeast(m: nat, ks: set<nat>)
  {
    m in ks && forall k :: k in ks ==> m <= k
  }

  lemma {:induction false} LeastExists(ks: set<nat>)
    requires ks != {}
    ensures exists m :: IsLeast(m, ks)
    decreases |ks|
  {
    var x :| x in ks;
    if ks == {x} {
      assert IsLeast(x, ks);
    } else {
      LeastExists(ks - {x});
      var m :| IsLeast(m, ks - {x});
      var least := if x < m then x else m;
      forall k | k in ks
        ensures least <= k
      {
        if k != x {
          assert k in ks - {x};
        }
      }
      assert IsLeast(least, ks);
    }
  }

  /** The smallest key. */
  function Least(ks: set<nat>): (m: nat)
    requires ks != {}
    ensures m in ks && forall k :: k in ks ==> m <= k
  {
    LeastExists(ks);
    var m :| IsLeast(m, ks);
    m
  }

  /** The keys in ascending order (`[...keys].sort((a, b) => a - b)`). */
  function Ascending(ks: set<nat>): (r: seq<nat>)
    ensures |r| == |ks| && Increasing(r)
    ensures forall k :: k in r <==> k in ks
    decreases |ks|
  {
    if ks == {} then []
    else
      var m := Least(ks);
      [m] + Ascending(ks - {m})
  }


  /** The keys of a map too large to keep, in ascending order, split at the newest `META_KEEP`. */
  function Dropped(m: map<nat, FrameMeta>): seq<nat>
    requires |m| > META_MAX
  {
    var ks := Ascending(m.Keys);
    ks[..|ks| - META_KEEP]
  }

  function Kept(m: map<nat, FrameMeta>): seq<nat>
    requires |m| > META_MAX
  {
    var ks := Ascending(m.Keys);
    ks[|ks| - META_KEEP..]
  }

  /** m without the keys listed in ks. */
  function Without(m: map<nat, FrameMeta>, ks: seq<nat>): map<nat, FrameMeta>
  {
    map k | k in m && k !in ks :: m[k]
  }

  lemma WithoutStep(m: map<nat, FrameMeta>, ks: seq<nat>, i: nat)
    requires i < |ks|
    ensures Without(m, ks[..i + 1]) == Without(m, ks[..i]) - {ks[i]}
  {
    assert ks[..i + 1] == ks[..i] + [ks[i]];
  }

  /** What `decodeFrame` leaves of `S.frameMeta`: all but the `META_KEEP` largest keys go once it is too large. */
  function Prune(m: map<nat, FrameMeta>): map<nat, FrameMeta>
  {
    if |m| <= META_MAX then m
    else Without(m, Dropped(m))
  }

  lemma PruneKeys(m: map<nat, FrameMeta>)
    requires |m| > META_MAX
    ensures Prune(m).Keys == Elems(Kept(m))
    ensures forall k :: k in m && k !in Prune(m) ==> k in Dropped(m)
  {
    var ks := Ascending(m.Keys);
    var n := |ks|;
    assert ks == Dropped(m) + Kept(m);
    forall x | x in Kept(m)
      ensures x !in Dropped(m)
    {
      forall y | y in Dropped(m)
        ensures y < x
      {
        PruneOrder(m, y, x);
      }
    }
  }

  lemma PruneOrder(m: map<nat, FrameMeta>, k: nat, j: nat)
    requires |m| > META_MAX && k in Dropped(m) && j in Kept(m)
    ensures k < j
  {
    var ks := Ascending(m.Keys);
    var a :| 0 <= a < |Dropped(m)| && Dropped(m)[a] == k;
    var b :| 0 <= b < |Kept(m)| && Kept(m)[b] == j;
    assert ks[a] == k && ks[|Dropped(m)| + b] == j;
  }

  /** Pruning keeps exactly the `META_KEEP` largest keys with their entries. */
  lemma PruneKeepsNewest(m: map<nat, FrameMeta>)
    requires |m| > META_MAX
    ensures forall k :: k in Prune(m) ==> k in m && Prune(m)[k] == m[k]
    ensures |Prune(m)| == META_KEEP
    ensures forall k, j :: k in m && k !in Prune(m) && j in Prune(m) ==> k < j
  {
    PruneSize(m);
    PruneOrdered(m);
  }

  lemma PruneSize(m: map<nat, FrameMeta>)
    requires |m| > META_MAX
    ensures |Prune(m)| == META_KEEP
  {
    PruneDomain(m);
    KeptCard(m);
    var d := Prune(m).Keys;
    assert |Prune(m)| == |d|;
  }

  lemma PruneDomain(m: map<nat, FrameMeta>)
    requires |m| > META_MAX
    ensures Prune(m).Keys == Elems(Kept(m))
  {
    PruneKeys(m);
  }

  lemma KeptCard(m: map<nat, FrameMeta>)
    requires |m| > META_MAX
    ensures |Elems(Kept(m))| == META_KEEP
  {
    IncreasingCard(Kept(m));
  }

  lemma PruneOrdered(m: map<nat, FrameMeta>)
    requires |m| > META_MAX
    ensures forall k, j :: k in m && k !in Prune(m) && j in Prune(m) ==> k < j
  {
    PruneKeys(m);
    forall k, j | k in m && k !in Prune(m) && j in Prune(m)
      ensures k < j
    {
      PruneOrder(m, k, j);
    }
  }

  /** A small map is left as it is. */
  lemma PruneSmall(m: map<nat, FrameMeta>)
    requires |m| <= META_MAX
    ensures Prune(m) == m
  {
  }

  /** The deletion loop of `decodeFrame`: delete every key but the `META_KEEP` largest, smallest first. */
  method PruneFrameMeta(m: map<nat, FrameMeta>) returns (r: map<nat, FrameMeta>)
    requires |m| > META_MAX
    ensures r == Prune(m)
  {
    var sorted := Ascending(m.Keys);
    var cut := |sorted| - META_KEEP;
    r := m;
    assert r == Without(m, sorted[..0]);
    for i := 0 to cut
      invariant r == Without(m, sorted[..i])
    {
      WithoutStep(m, sorted, i);
      r := r - {sorted[i]};
    }
    assert sorted[..cut] == Dropped(m);
  }

  // ---------------------------------------------------------------------
  // decodeFrame
  // ---------------------------------------------------------------------

  /** The argument of `decodeFrame`. */
  datatype FrameData = FrameData(buf: seq<byte>, capTs: int, isKey: bool, arrivalMs: real)

  /** The gates of `decodeFrame`, each tried only after all earlier ones passed. */
  datatype Gate = NotReady | AwaitingKey | NotConfigured | QueueFull | BadTimestamp | Accepted

  function GateOf(v: VideoPath, d: FrameData): Gate
  {
    if !v.ready then NotReady
    else if !d.isKey && v.needKey then AwaitingKey
    else if !v.decoderConfigured then NotConfigured
    else if v.decodeQueueSize > MAX_DECODE_QUEUE && !d.isKey then QueueFull
    else if d.capTs < 0 then BadTimestamp
    else Accepted
  }

  /** Which gate stops a frame: each is tried only after all earlier ones passed. */
  lemma GateOrder(v: VideoPath, d: FrameData)
    ensures GateOf(v, d) == NotReady <==> !v.ready
    ensures GateOf(v, d) == AwaitingKey <==> v.ready && !d.isKey && v.needKey
    ensures GateOf(v, d) == NotConfigured <==> v.ready && (d.isKey || !v.needKey) && !v.decoderConfigured
    ensures GateOf(v, d) == QueueFull <==>
      v.ready && !v.needKey && v.decoderConfigured && v.decodeQueueSize > MAX_DECODE_QUEUE && !d.isKey
    ensures GateOf(v, d) == Accepted <==>
      v.ready && (d.isKey || !v.needKey) && v.decoderConfigured &&
      (d.isKey || v.decodeQueueSize <= MAX_DECODE_QUEUE) && d.capTs >= 0
  {
  }

  /** The chunk duration: the gap to the previous capture time when that is known and earlier. */
  function Duration(lastTs: nat, capTs: nat): (r: nat)
    ensures lastTs > 0 && capTs > lastTs ==> lastTs + r == capTs
    ensures !(lastTs > 0 && capTs > lastTs) ==> r == DEFAULT_DURATION
  {
    if lastTs > 0 && capTs > lastTs then capTs - lastTs else DEFAULT_DURATION
  }

  /** The metadata of an accepted frame is remembered, the table pruned, its capture time kept. */
  function Remember(v: VideoPath, d: FrameData, nowMs: real): VideoPath
    requires d.capTs >= 0
  {
    var ts := d.capTs as nat;
    v.(frameMeta := Prune(v.frameMeta[ts := FrameMeta(ts, nowMs, d.arrivalMs)]), lastCaptureTs := ts)
  }

  /** A decode error: the frame is dropped and counted, and the stream waits for a keyframe again. */
  function DecodeError(v: VideoPath): VideoPath
  {
    var v1 := VideoDrop(v);
    v1.(stats := v1.stats.(decodeErrors := v1.stats.decodeErrors + 1), needKey := true, ready := true)
  }

  /** The `catch` of `decodeFrame`: a decode error, and a keyframe asked for until one comes. */
  function Failed(v: VideoPath, nowMs: real): VideoPath
  {
    StartRetry(RequestKey(DecodeError(v), nowMs))
  }

  /** A chunk the decoder took: a keyframe ends the wait for one. */
  function Accept(v: VideoPath, job: DecodeJob): VideoPath
  {
    var v1 := v.(decoded := v.decoded + [job]);
    if job.isKey then StopRetry(v1.(needKey := false)) else v1
  }

  /** A frame past every gate: remembered, timed, then submitted or refused by the decoder. */
  function Submit(v: VideoPath, d: FrameData, nowMs: real, throws: bool): VideoPath
    requires d.capTs >= 0
  {
    var ts := d.capTs as nat;
    var v1 := Remember(v, d, nowMs);
    if throws then Failed(v1, nowMs)
    else Accept(v1, DecodeJob(d.buf, ts, d.isKey, Duration(v.lastCaptureTs, ts)))
  }

  /** A frame stopped at gate g. */
  function Refuse(v: VideoPath, g: Gate, nowMs: real): VideoPath
    requires g != Accepted
  {
    match g
    case NotReady => RequestKey(VideoDrop(v), nowMs)
    case AwaitingKey => StartRetry(RequestKey(VideoDrop(v), nowMs))
    case NotConfigured => TryReinit(VideoDrop(v))
    case QueueFull => RequestKey(VideoDrop(v), nowMs)
    case BadTimestamp => VideoDrop(v)
  }

  /** `decodeFrame`; the decoder throws on the capture times in `rejects`. */
  function Decode(v: VideoPath, d: FrameData, nowMs: real, rejects: set<int>): VideoPath
  {
    var g := GateOf(v, d);
    if g == Accepted then Submit(v, d, nowMs, d.capTs in rejects) else Refuse(v, g, nowMs)
  }

  /**
   * A frame stopped by a gate is counted as dropped and reaches no decoder;
   * the frame table, the metadata and the decoder flags stay as they were.
   */
  lemma GateDrops(v: VideoPath, d: FrameData, nowMs: real, rejects: set<int>)
    requires GateOf(v, d) != Accepted
    ensures Decode(v, d, nowMs, rejects).decoded == v.decoded
    ensures Decode(v, d, nowMs, rejects).stats == v.stats.(framesDropped := v.stats.framesDropped + 1)
    ensures Decode(v, d, nowMs, rejects).frameMeta == v.frameMeta
    ensures Decode(v, d, nowMs, rejects).lastCaptureTs == v.lastCaptureTs
    ensures Decode(v, d, nowMs, rejects).needKey == v.needKey
    ensures Decode(v, d, nowMs, rejects).ready == v.ready
    ensures Decode(v, d, nowMs, rejects).chunks == v.chunks
  {
    var g := GateOf(v, d);
    assert Decode(v, d, nowMs, rejects) == Refuse(v, g, nowMs);
    match g
    case NotReady =>
    case AwaitingKey =>
    case NotConfigured =>
    case QueueFull =>
    case BadTimestamp =>
  }

  /** Only a decoder that is not configured schedules a re-initialisation. */
  lemma GateReinit(v: VideoPath, d: FrameData, nowMs: real, rejects: set<int>)
    requires GateOf(v, d) != Accepted
    ensures Decode(v, d, nowMs, rejects).reinit == (v.reinit || GateOf(v, d) == NotConfigured)
  {
    var g := GateOf(v, d);
    assert Decode(v, d, nowMs, rejects) == Refuse(v, g, nowMs);
    match g
    case NotReady =>
    case AwaitingKey =>
    case NotConfigured =>
    case QueueFull =>
    case BadTimestamp =>
  }

  /**
   * A frame refused because the stream is not ready, still waits for a
   * keyframe or meets a full queue asks for a keyframe; the other refusals
   * send nothing.
   */
  lemma GateRequests(v: VideoPath, d: FrameData, nowMs: real, rejects: set<int>)
    requires GateOf(v, d) != Accepted
    ensures GateOf(v, d) in {NotReady, AwaitingKey, QueueFull} ==>
      Decode(v, d, nowMs, rejects).ctrlSent == v.ctrlSent + (if Sends(v, nowMs) then [KeyRequestMessage()] else [])
    ensures GateOf(v, d) in {NotConfigured, BadTimestamp} ==> Decode(v, d, nowMs, rejects).ctrlSent == v.ctrlSent
  {
    var w := VideoDrop(v);
    assert Sends(w, nowMs) == Sends(v, nowMs);
    var g := GateOf(v, d);
    assert Decode(v, d, nowMs, rejects) == Refuse(v, g, nowMs);
    match g
    case NotReady =>
    case AwaitingKey =>
    case NotConfigured =>
    case QueueFull =>
    case BadTimestamp =>
  }

  /** Only a delta frame that arrives while a keyframe is awaited starts the retry. */
  lemma GateRetry(v: VideoPath, d: FrameData, nowMs: real, rejects: set<int>)
    requires GateOf(v, d) != Accepted
    ensures Decode(v, d, nowMs, rejects).kfRetry == (v.kfRetry || GateOf(v, d) == AwaitingKey)
  {
    var g := GateOf(v, d);
    assert Decode(v, d, nowMs, rejects) == Refuse(v, g, nowMs);
    match g
    case NotReady =>
    case AwaitingKey =>
    case NotConfigured =>
    case QueueFull =>
    case BadTimestamp =>
  }

  /** `decodeFrame` leaves the reassembler's table, its cursor and the first-frame flags alone. */
  lemma DecodeLeavesTable(v: VideoPath, d: FrameData, nowMs: real, rejects: set<int>)
    ensures Decode(v, d, nowMs, rejects).chunks == v.chunks
    ensures Decode(v, d, nowMs, rejects).lastFrameId == v.lastFrameId
    ensures Decode(v, d, nowMs, rejects).waitingFirstFrame == v.waitingFirstFrame
    ensures Decode(v, d, nowMs, rejects).hasConnection == v.hasConnection
    ensures Decode(v, d, nowMs, rejects).net == v.net
  {
    var g := GateOf(v, d);
    if g == Accepted {
      assert Decode(v, d, nowMs, rejects) == Submit(v, d, nowMs, d.capTs in rejects);
    } else {
      assert Decode(v, d, nowMs, rejects) == Refuse(v, g, nowMs);
      match g
      case NotReady =>
      case AwaitingKey =>
      case NotConfigured =>
      case QueueFull =>
      case BadTimestamp =>
    }
  }

  /**
   * An accepted frame is submitted with its duration and remembered in the
   * metadata; a keyframe clears `needKey` and stops the retry.
   */
  lemma AcceptedDecodes(v: VideoPath, d: FrameData, nowMs: real, rejects: set<int>)
    requires GateOf(v, d) == Accepted && d.capTs !in rejects
    ensures Decode(v, d, nowMs, rejects).decoded ==
      v.decoded + [DecodeJob(d.buf, d.capTs as nat, d.isKey, Duration(v.lastCaptureTs, d.capTs as nat))]
    ensures Decode(v, d, nowMs, rejects).lastCaptureTs == d.capTs
    ensures Decode(v, d, nowMs, rejects).frameMeta ==
      Prune(v.frameMeta[d.capTs as nat := FrameMeta(d.capTs as nat, nowMs, d.arrivalMs)])
    ensures Decode(v, d, nowMs, rejects).needKey == (v.needKey && !d.isKey)
    ensures d.isKey ==> !Decode(v, d, nowMs, rejects).kfRetry
    ensures Decode(v, d, nowMs, rejects).stats == v.stats
  {
    assert Decode(v, d, nowMs, rejects) == Submit(v, d, nowMs, d.capTs in rejects);
  }

  /** A decode exception counts an error, asks for a keyframe and starts the retry. */
  lemma RejectedDecode(v: VideoPath, d: FrameData, nowMs: real, rejects: set<int>)
    requires GateOf(v, d) == Accepted && d.capTs in rejects
    ensures Decode(v, d, nowMs, rejects).decoded == v.decoded
    ensures Decode(v, d, nowMs, rejects).stats.decodeErrors == v.stats.decodeErrors + 1
    ensures Decode(v, d, nowMs, rejects).stats.framesDropped == v.stats.framesDropped + 1
    ensures Decode(v, d, nowMs, rejects).needKey && Decode(v, d, nowMs, rejects).ready
    ensures Decode(v, d, nowMs, rejects).kfRetry
  {
    assert Decode(v, d, nowMs, rejects) == Submit(v, d, nowMs, d.capTs in rejects);
  }

  // ---------------------------------------------------------------------
  // The session methods
  // ---------------------------------------------------------------------

  method StartKeyframeRetry(s: Session)
    modifies s`kfRetry
    ensures s.View() == StartRetry(old(s.View()))
  {
    s.kfRetry := false;
    s.kfRetry := true;
  }

  method StopKeyframeRetry(s: Session)
    modifies s`kfRetry
    ensures s.View() == StopRetry(old(s.View()))
  {
    if s.kfRetry {
      s.kfRetry := false;
    }
  }

  /** The interval callback of the keyframe retry. */
  method OnRetryTick(s: Session, nowMs: real)
    requires s.kfRetry
    modifies s`ctrlSent, s`lastKeyReqAt, s`keyReqTimer, s`kfRetry
    ensures s.View() == RetryTick(old(s.View()), nowMs)
  {
    if s.needKey && s.ready {
      var _ := RequestKeyframe(s, nowMs);
    } else if !s.needKey {
      StopKeyframeRetry(s);
    }
  }

  /** `tryReinitDecoder`; the result says whether a reinit was scheduled. */
  method TryReinitDecoder(s: Session) returns (scheduled: bool)
    modifies s`reinit
    ensures scheduled <==> !old(s.reinit)
    ensures s.View() == TryReinit(old(s.View()))
  {
    scheduled := !s.reinit;
    if scheduled {
      s.reinit := true;
    }
  }

  /** The gate `decodeFrame` stops the frame at, read from the session. */
  method CheckGates(s: Session, d: FrameData) returns (g: Gate)
    ensures g == GateOf(s.View(), d)
  {
    var queueSize := s.decodeQueueSize;
    if !s.ready {
      g := NotReady;
    } else if !d.isKey && s.needKey {
      g := AwaitingKey;
    } else if !s.decoderConfigured {
      g := NotConfigured;
    } else if queueSize > MAX_DECODE_QUEUE && !d.isKey {
      g := QueueFull;
    } else if d.capTs < 0 {
      g := BadTimestamp;
    } else {
      g := Accepted;
    }
  }

  /** `decodeFrame`. */
  method DecodeFrame(s: Session, d: FrameData, nowMs: real, rejects: set<int>)
    modifies s`stats, s`ctrlSent, s`lastKeyReqAt, s`keyReqTimer, s`kfRetry, s`reinit,
             s`frameMeta, s`lastCaptureTs, s`decoded, s`needKey, s`ready
    ensures s.View() == Decode(old(s.View()), d, nowMs, rejects)
  {
    var g := CheckGates(s, d);
    if g == Accepted {
      SubmitFrame(s, d, nowMs, d.capTs in rejects);
    } else {
      RefuseFrame(s, g, nowMs);
    }
  }

  /** The early returns of `decodeFrame`. */
  method RefuseFrame(s: Session, g: Gate, nowMs: real)
    requires g != Accepted
    modifies s`stats, s`ctrlSent, s`lastKeyReqAt, s`keyReqTimer, s`kfRetry, s`reinit
    ensures s.View() == Refuse(old(s.View()), g, nowMs)
  {
    ghost var v := VideoDrop(s.View());
    s.LogVideoDrop();
    assert s.View() == v;
    match g
    case NotReady =>
      var _ := RequestKeyframe(s, nowMs);
    case AwaitingKey =>
      var _ := RequestKeyframe(s, nowMs);
      assert s.View() == RequestKey(v, nowMs);
      StartKeyframeRetry(s);
    case NotConfigured =>
      var _ := TryReinitDecoder(s);
    case QueueFull =>
      var _ := RequestKeyframe(s, nowMs);
    case BadTimestamp =>
  }

  /** The rest of `decodeFrame` once every gate has passed; `throws` is the decoder's verdict. */
  method SubmitFrame(s: Session, d: FrameData, nowMs: real, throws: bool)
    requires d.capTs >= 0
    modifies s`stats, s`ctrlSent, s`lastKeyReqAt, s`keyReqTimer, s`kfRetry,
             s`frameMeta, s`lastCaptureTs, s`decoded, s`needKey, s`ready
    ensures s.View() == Submit(old(s.View()), d, nowMs, throws)
  {
    var duration := RememberFrame(s, d, nowMs);
    if throws {
      DecodeFailed(s, nowMs);
    } else {
      Decoded(s, DecodeJob(d.buf, d.capTs as nat, d.isKey, duration));
    }
  }

  /** The metadata bookkeeping of `decodeFrame`; returns the chunk's duration. */
  method RememberFrame(s: Session, d: FrameData, nowMs: real) returns (duration: nat)
    requires d.capTs >= 0
    modifies s`frameMeta, s`lastCaptureTs
    ensures duration == Duration(old(s.lastCaptureTs), d.capTs as nat)
    ensures s.View() == Remember(old(s.View()), d, nowMs)
  {
    var ts := d.capTs as nat;
    s.frameMeta := s.frameMeta[ts := FrameMeta(ts, nowMs, d.arrivalMs)];
    if |s.frameMeta| > META_MAX {
      s.frameMeta := PruneFrameMeta(s.frameMeta);
    }
    duration := if s.lastCaptureTs > 0 && ts > s.lastCaptureTs then ts - s.lastCaptureTs else DEFAULT_DURATION;
    s.lastCaptureTs := ts;
  }

  /** The `catch` of `decodeFrame`. */
  method DecodeFailed(s: Session, nowMs: real)
    modifies s`stats, s`ctrlSent, s`lastKeyReqAt, s`keyReqTimer, s`kfRetry, s`needKey, s`ready
    ensures s.View() == Failed(old(s.View()), nowMs)
  {
    RecordDecodeError(s);
    var _ := RequestKeyframe(s, nowMs);
    StartKeyframeRetry(s);
  }

  /** The counters and flags the `catch` of `decodeFrame` sets. */
  method RecordDecodeError(s: Session)
    modifies s`stats, s`needKey, s`ready
    ensures s.View() == DecodeError(old(s.View()))
  {
    s.LogVideoDrop();
    s.stats := s.stats.(decodeErrors := s.stats.decodeErrors + 1);
    s.needKey := true;
    s.ready := true;
  }

  /** The `try` of `decodeFrame` when the decoder takes the chunk. */
  method Decoded(s: Session, job: DecodeJob)
    modifies s`decoded, s`needKey, s`kfRetry
    ensures s.View() == Accept(old(s.View()), job)
  {
    s.decoded := s.decoded + [job];
    if job.isKey {
      s.needKey := false;
      StopKeyframeRetry(s);
    }
  }
}
