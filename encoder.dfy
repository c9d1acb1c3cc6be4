// Hardware encoder selection and the per-frame encode bookkeeping of the
// server's VideoEncoder: which vendor's encoder is tried first, which codecs
// the machine can encode, the frame-rate update guard and the keyframe and
// counter rules of one Encode call.
module Encoder {
  import opened Bytes

  // GPUVendor and CodecType are uint8 enums; any byte value can reach the
  // lookup functions, which is why they take a `byte`.
  const NVIDIA: byte := 0
  const INTEL: byte := 1
  const AMD: byte := 2
  const UNKNOWN: byte := 255

  const CODEC_AV1: nat := 0
  const CODEC_H265: nat := 1
  const CODEC_H264: nat := 2

  /** Encoder names indexed by vendor, then codec. */
  const ENC_NAMES: seq<seq<string>> := [
    ["av1_nvenc", "hevc_nvenc", "h264_nvenc"],
    ["av1_qsv", "hevc_qsv", "h264_qsv"],
    ["av1_amf", "hevc_amf", "h264_amf"]
  ]

  /** The FFmpeg encoder name for codec `c` on vendor `v`; none past AMD. */
  function EncName(c: nat, v: byte): (r: Option<string>)
    requires c <= CODEC_H264
    ensures r.Some? <==> v <= AMD
  {
    if v <= AMD then Some(ENC_NAMES[v][c]) else None
  }

  function VendorName(v: byte): (r: string)
    ensures r == "Unknown" <==> v > AMD
  {
    ["NVIDIA NVENC", "Intel QSV", "AMD AMF", "Unknown"][if v <= AMD then v as int else 3]
  }

  function CodecName(c: byte): (r: string)
    ensures r == "Unknown" <==> c as nat > CODEC_H264
  {
    if c as nat <= CODEC_H264 then ["AV1", "H.265/HEVC", "H.264/AVC"][c] else "Unknown"
  }

  /**
   * The vendor behind a device's adapter. `vendorId` is None when there is no
   * device or any of the adapter queries fails.
   */
  function DetectGPU(vendorId: Option<nat>): (r: byte)
    ensures r == NVIDIA <==> vendorId == Some(0x10DE)
    ensures r == INTEL <==> vendorId == Some(0x8086)
    ensures r == AMD <==> vendorId == Some(0x1002)
    ensures r in {NVIDIA, INTEL, AMD, UNKNOWN}
  {
    match vendorId
    case None => UNKNOWN
    case Some(id) =>
      if id == 0x10DE then NVIDIA
      else if id == 0x8086 then INTEL
      else if id == 0x1002 then AMD
      else UNKNOWN
  }

  // ---------------------------------------------------------------------
  // Vendor priority

  const VENDORS: seq<byte> := [NVIDIA, INTEL, AMD]

  function Without(s: seq<byte>, d: byte): (r: seq<byte>)
  {
    if s == [] then [] else (if s[0] != d then [s[0]] else []) + Without(s[1..], d)
  }

  lemma WithoutSnoc(s: seq<byte>, x: byte, d: byte)
    ensures Without(s + [x], d) == Without(s, d) + (if x != d then [x] else [])
  {
    if s != [] {
      assert (s + [x])[1..] == s[1..] + [x];
      WithoutSnoc(s[1..], x, d);
    } else {
      assert Without([x], d) == (if x != d then [x] else []) + Without([], d);
    }
  }

  lemma WithoutVendors(d: byte)
    ensures Without(VENDORS, d) == (if d != NVIDIA then [NVIDIA] else []) +
      (if d != INTEL then [INTEL] else []) + (if d != AMD then [AMD] else [])
  {
    assert VENDORS == [] + [NVIDIA] + [INTEL] + [AMD];
    WithoutSnoc([] + [NVIDIA] + [INTEL], AMD, d);
    WithoutSnoc([] + [NVIDIA], INTEL, d);
    WithoutSnoc([], NVIDIA, d);
  }

  /** The order in which vendors are tried: the detected one, then the rest. */
  function Priority(d: byte): seq<byte>
  {
    (if d != UNKNOWN then [d] else []) + Without(VENDORS, d)
  }

  /** The priority list as GetVendorPriority builds it, vendor by vendor. */
  method VendorPriority(detected: byte) returns (list: seq<byte>)
    ensures list == Priority(detected)
  {
    list := [];
    if detected != UNKNOWN {
      list := list + [detected];
    }
    var head := list;
    var i := 0;
    while i < |VENDORS|
      invariant 0 <= i <= |VENDORS|
      invariant list == head + Without(VENDORS[..i], detected)
    {
      var v := VENDORS[i];
      WithoutSnoc(VENDORS[..i], v, detected);
      assert VENDORS[..i + 1] == VENDORS[..i] + [v];
      if v != detected {
        list := list + [v];
      }
      i := i + 1;
    }
    assert VENDORS[..i] == VENDORS;
  }

  /**
   * The detected vendor comes first unless it is UNKNOWN; every real vendor
   * appears exactly once; the others keep the NVIDIA, INTEL, AMD order.
   */
  lemma PriorityFacts(d: byte)
    ensures var p := Priority(d);
      && (d != UNKNOWN ==> |p| > 0 && p[0] == d)
      && (d == UNKNOWN ==> p == VENDORS)
      && UNKNOWN !in p
      && (forall v :: v in VENDORS ==> v in p)
      && (forall v :: v in p ==> v == d || v in VENDORS)
      && (forall i, j :: 0 <= i < j < |p| ==> p[i] != p[j])
      && (forall i, j :: 0 <= i < j < |p| && p[i] != d ==> p[i] < p[j])
  {
    WithoutVendors(d);
  }

  // ---------------------------------------------------------------------
  // Codec support probe

  /** Vendor `v` has an encoder for codec `c` among the available names. */
  predicate Provides(v: byte, c: nat, available: set<string>)
    requires c <= CODEC_H264
  {
    EncName(c, v).Some? && EncName(c, v).value in available
  }

  /** Some vendor among the first `n` of `p` provides codec `c`. */
  predicate Covered(p: seq<byte>, n: nat, c: nat, available: set<string>)
    requires c <= CODEC_H264
  {
    exists k :: 0 <= k < n && k < |p| && Provides(p[k], c, available)
  }

  function Mask(av1: bool, h265: bool, h264: bool): bv8
  {
    (if av1 then 1 else 0) | (if h265 then 2 else 0) | (if h264 then 4 else 0)
  }

  function Bit(c: nat): bv8
    requires c <= CODEC_H264
  {
    (1 as bv8) << c
  }

  lemma MaskBit(b0: bool, b1: bool, b2: bool, c: nat)
    requires c <= CODEC_H264
    ensures (Mask(b0, b1, b2) & Bit(c) != 0) <==> [b0, b1, b2][c]
    ensures Mask(b0, b1, b2) | Bit(c) ==
      Mask(b0 || c == 0, b1 || c == 1, b2 || c == 2)
  {
  }

  /** How many vendors have been tried for codec `k` while codec `c` of vendor `i` is next. */
  function Upto(i: nat, c: nat, k: nat): nat
  {
    if k < c then i + 1 else i
  }

  /** The support mask ProbeSupport computes for the detected vendor. */
  function Support(d: byte, available: set<string>): bv8
  {
    var p := Priority(d);
    Mask(Covered(p, |p|, 0, available), Covered(p, |p|, 1, available),
         Covered(p, |p|, 2, available))
  }

  /**
   * Bit c of the mask is set exactly when some vendor in priority order has an
   * available encoder for codec c; only bits 0..2 can be set.
   */
  method ProbeSupport(detected: byte, available: set<string>) returns (support: bv8)
    ensures support == Support(detected, available)
    ensures support < 8
    ensures forall c :: 0 <= c <= CODEC_H264 ==>
      ((support & Bit(c) != 0) <==>
       exists k :: 0 <= k < |Priority(detected)| && Provides(Priority(detected)[k], c, available))
  {
    var p := VendorPriority(detected);
    support := 0;
    var i := 0;
    while i < |p|
      invariant 0 <= i <= |p|
      invariant support == MaskAt(p, i, 0, available)
    {
      var c := 0;
      while c <= 2
        invariant 0 <= c <= 3
        invariant support == MaskAt(p, i, c, available)
      {
        ProbeStep(p, i, c, available, support);
        if support & Bit(c) == 0 {
          var name := EncName(c, p[i]);
          if name.Some? {
            if name.value in available {
              support := support | Bit(c);
            }
          }
        }
        c := c + 1;
      }
      assert MaskAt(p, i, 3, available) == MaskAt(p, i + 1, 0, available);
      i := i + 1;
    }
    forall c | 0 <= c <= CODEC_H264
      ensures (support & Bit(c) != 0) <==>
        exists k :: 0 <= k < |p| && Provides(p[k], c, available)
    {
      MaskBit(Covered(p, i, 0, available), Covered(p, i, 1, available),
              Covered(p, i, 2, available), c);
    }
  }

  /** The mask while codec `c` of vendor `p[i]` is next. */
  function MaskAt(p: seq<byte>, i: nat, c: nat, available: set<string>): bv8
  {
    Mask(Covered(p, Upto(i, c, 0), 0, available), Covered(p, Upto(i, c, 1), 1, available),
         Covered(p, Upto(i, c, 2), 2, available))
  }

  /** One step of the probe: the bit test, and the mask after trying `p[i]` for codec `c`. */
  lemma ProbeStep(p: seq<byte>, i: nat, c: nat, available: set<string>, support: bv8)
    requires i < |p| && c <= CODEC_H264 && support == MaskAt(p, i, c, available)
    ensures (support & Bit(c) != 0) <==> Covered(p, i, c, available)
    ensures !Covered(p, i, c, available) && Provides(p[i], c, available) ==>
      support | Bit(c) == MaskAt(p, i, c + 1, available)
    ensures Covered(p, i, c, available) || !Provides(p[i], c, available) ==>
      support == MaskAt(p, i, c + 1, available)
  {
    CoveredStep(p, i, c, available);
    MaskBit(Covered(p, Upto(i, c, 0), 0, available), Covered(p, Upto(i, c, 1), 1, available),
            Covered(p, Upto(i, c, 2), 2, available), c);
  }

  lemma CoveredStep(p: seq<byte>, i: nat, c: nat, available: set<string>)
    requires i < |p| && c <= CODEC_H264
    ensures Covered(p, i + 1, c, available) <==>
      Covered(p, i, c, available) || Provides(p[i], c, available)
  {
    if Covered(p, i + 1, c, available) && !Provides(p[i], c, available) {
      var k :| 0 <= k < i + 1 && k < |p| && Provides(p[k], c, available);
      assert k < i;
    }
  }

  /**
   * The detected vendor only changes the order of the probe, never its
   * result: every vendor that has encoders is in every priority list.
   */
  lemma SupportIgnoresDetection(d1: byte, d2: byte, available: set<string>)
    ensures Support(d1, available) == Support(d2, available)
  {
    forall c | 0 <= c <= CODEC_H264
      ensures Covered(Priority(d1), |Priority(d1)|, c, available) ==
              Covered(Priority(d2), |Priority(d2)|, c, available)
    {
      CoveredByAnyVendor(d1, c, available);
      CoveredByAnyVendor(d2, c, available);
    }
  }

  lemma CoveredByAnyVendor(d: byte, c: nat, available: set<string>)
    requires c <= CODEC_H264
    ensures Covered(Priority(d), |Priority(d)|, c, available) <==>
      exists v :: v in VENDORS && Provides(v, c, available)
  {
    var p := Priority(d);
    PriorityFacts(d);
    if Covered(p, |p|, c, available) {
      var k :| 0 <= k < |p| && Provides(p[k], c, available);
      assert p[k] in VENDORS;
    }
    if v :| v in VENDORS && Provides(v, c, available) {
      assert v in p;
      var k :| 0 <= k < |p| && p[k] == v;
      assert Provides(p[k], c, available);
    }
  }

  /**
   * The vendor the encoder is built on: the first in priority order whose
   * initialisation succeeds (`usable` stands for the vendors whose encoder
   * opens); None is the "no hardware encoder" failure.
   */
  method ChooseVendor(detected: byte, usable: set<byte>) returns (r: Option<byte>)
    ensures r.Some? <==> exists v :: v in Priority(detected) && v in usable
    ensures r.Some? ==> exists i :: (0 <= i < |Priority(detected)| &&
      Priority(detected)[i] == r.value && r.value in usable &&
      forall k :: 0 <= k < i ==> Priority(detected)[k] !in usable)
  {
    var p := VendorPriority(detected);
    var i := 0;
    while i < |p|
      invariant 0 <= i <= |p|
      invariant forall k :: 0 <= k < i ==> p[k] !in usable
    {
      if p[i] in usable {
        return Some(p[i]);
      }
      i := i + 1;
    }
    r := None;
  }

  /** The constant-quality value handed to every vendor's encoder. */
  function Quality(c: nat): (r: string)
    ensures c == CODEC_H264 ==> r == "23"
    ensures c == CODEC_H265 ==> r == "25"
    ensures c != CODEC_H264 && c != CODEC_H265 ==> r == "28"
  {
    if c == CODEC_H264 then "23" else if c == CODEC_H265 then "25" else "28"
  }

  // ---------------------------------------------------------------------
  // Frame-rate updates

  const MIN_FPS: int := 1
  const MAX_FPS: int := 240

  /** UpdateFPS's guard: only a different rate within 1..240 is applied. */
  predicate FpsAccepted(cur: int, fps: int)
  {
    fps != cur && MIN_FPS <= fps <= MAX_FPS
  }

  /** The rate after a request, and whether it was applied. */
  function FpsAfter(cur: int, fps: int): (r: (bool, int))
    ensures r.0 ==> r.1 == fps && MIN_FPS <= r.1 <= MAX_FPS && r.1 != cur
    ensures !r.0 ==> r.1 == cur
  {
    if FpsAccepted(cur, fps) then (true, fps) else (false, cur)
  }

  /** Repeating an update is refused and changes nothing. */
  lemma FpsIdempotent(cur: int, fps: int)
    ensures var (_, next) := FpsAfter(cur, fps);
      FpsAfter(next, fps) == (false, next)
  {
  }

  // ---------------------------------------------------------------------
  // One Encode call

  /** What avcodec_send_frame reports. */
  datatype SendResult = Sent | Again | Eof | SendError

  /** A packet pulled from the encoder: its bytes and its key flag. */
  datatype Packet = Packet(data: seq<byte>, key: bool)

  /**
   * What the GPU and the codec library do during a call: the surface
   * allocation, the fence wait, the first send, the packets drained before
   * a retried send, the retry's result, and the packets drained after.
   */
  datatype Codec = Codec(bufferOk: bool, gpuOk: bool, first: SendResult,
                         early: seq<Packet>, retry: SendResult, late: seq<Packet>)

  datatype Texture = Texture(width: nat, height: nat)

  /** The frame handed to the encoder: its pts and whether it is forced to be a keyframe. */
  datatype Submit = Submit(pts: nat, key: bool)

  datatype EncodedFrame = EncodedFrame(data: seq<byte>, ts: int, isKey: bool)

  datatype Counters = Counters(frameNum: nat, totalFrames: nat, failedFrames: nat)

  datatype Outcome = Outcome(c: Counters, frame: Option<EncodedFrame>, sub: Option<Submit>)

  function Payload(ps: seq<Packet>): (r: seq<byte>)
  {
    if ps == [] then [] else ps[0].data + Payload(ps[1..])
  }

  predicate AnyKey(ps: seq<Packet>)
  {
    exists i :: 0 <= i < |ps| && ps[i].key
  }

  /** The send result that decides the call: the retry when the first send said EAGAIN. */
  function Final(e: Codec): SendResult
  {
    if e.first == Again then e.retry else e.first
  }

  /** A negative result other than end-of-stream fails the frame. */
  predicate SendFailed(e: Codec)
  {
    Final(e) == Again || Final(e) == SendError
  }

  /** Everything drained during the call, in order. */
  function Drained(e: Codec): seq<Packet>
  {
    (if e.first == Again then e.early else []) + e.late
  }

  /** The result of Encode for a texture of the encoder's size. */
  function Submitted(c: Counters, ts: int, forceKey: bool, e: Codec): (r: Outcome)
    requires e.bufferOk && e.gpuOk
  {
    var sub := Submit(c.frameNum, forceKey || c.frameNum == 0);
    var c1 := c.(frameNum := c.frameNum + 1);
    if SendFailed(e) then
      Outcome(c1.(failedFrames := c.failedFrames + 1), None, Some(sub))
    else
      var data := Payload(Drained(e));
      if data == [] then Outcome(c1, None, Some(sub))
      else Outcome(c1.(totalFrames := c.totalFrames + 1),
                   Some(EncodedFrame(data, ts, AnyKey(Drained(e)))), Some(sub))
  }

  function EncodeStep(c: Counters, w: nat, h: nat, tex: Option<Texture>, ts: int,
                      forceKey: bool, e: Codec): Outcome
  {
    if tex.None? || tex.value != Texture(w, h) then Outcome(c, None, None)
    else if !e.bufferOk || !e.gpuOk then
      Outcome(c.(failedFrames := c.failedFrames + 1), None, None)
    else Submitted(c, ts, forceKey, e)
  }

  /**
   * A frame reaches the encoder exactly when the texture fits and the surface
   * and GPU copy succeed; it takes the next pts and is forced to be a keyframe
   * iff the caller asked or it is the first frame; frameNum counts it.
   */
  lemma KeyframeRule(c: Counters, w: nat, h: nat, tex: Option<Texture>, ts: int,
                     forceKey: bool, e: Codec)
    ensures var r := EncodeStep(c, w, h, tex, ts, forceKey, e);
      && (r.sub.Some? <==> tex == Some(Texture(w, h)) && e.bufferOk && e.gpuOk)
      && (r.sub.Some? ==> r.sub.value == Submit(c.frameNum, forceKey || c.frameNum == 0))
      && r.c.frameNum == c.frameNum + (if r.sub.Some? then 1 else 0)
  {
  }

  /**
   * totalFrames counts returned frames, failedFrames counts surface, GPU and
   * send failures; a call adds to at most one of them, and a returned frame
   * carries the drained bytes, the caller's timestamp and the packets' key flag.
   */
  lemma CounterRule(c: Counters, w: nat, h: nat, tex: Option<Texture>, ts: int,
                    forceKey: bool, e: Codec)
    ensures var r := EncodeStep(c, w, h, tex, ts, forceKey, e);
      var fits := tex == Some(Texture(w, h));
      var failed := fits && (!e.bufferOk || !e.gpuOk || SendFailed(e));
      && r.c.totalFrames == c.totalFrames + (if r.frame.Some? then 1 else 0)
      && r.c.failedFrames == c.failedFrames + (if failed then 1 else 0)
      && (r.frame.Some? <==> fits && !failed && Payload(Drained(e)) != [])
      && (r.frame.Some? ==>
            r.frame.value == EncodedFrame(Payload(Drained(e)), ts, AnyKey(Drained(e))))
  {
  }

  /** A run of Encode calls, each with its own texture, timestamp, key request and codec behaviour. */
  datatype Call = Call(tex: Option<Texture>, ts: int, forceKey: bool, e: Codec)

  function Run(c: Counters, w: nat, h: nat, calls: seq<Call>): (r: (Counters, seq<Submit>))
    decreases |calls|
  {
    if calls == [] then (c, [])
    else
      var o := EncodeStep(c, w, h, calls[0].tex, calls[0].ts, calls[0].forceKey, calls[0].e);
      var (c', subs) := Run(o.c, w, h, calls[1..]);
      (c', (if o.sub.Some? then [o.sub.value] else []) + subs)
  }

  /**
   * Over any run the submitted frames get consecutive pts from frameNum on,
   * and frameNum ends at the count of submitted frames; only the very first
   * frame is a keyframe without being asked for.
   */
  lemma {:induction false} PtsConsecutive(c: Counters, w: nat, h: nat, calls: seq<Call>)
    ensures var (c', subs) := Run(c, w, h, calls);
      && c'.frameNum == c.frameNum + |subs|
      && (forall i :: 0 <= i < |subs| ==> subs[i].pts == c.frameNum + i)
      && (forall i :: 0 <= i < |subs| && subs[i].key && subs[i].pts != 0 ==>
            exists j :: 0 <= j < |calls| && calls[j].forceKey)
    decreases |calls|
  {
    if calls != [] {
      var o := EncodeStep(c, w, h, calls[0].tex, calls[0].ts, calls[0].forceKey, calls[0].e);
      KeyframeRule(c, w, h, calls[0].tex, calls[0].ts, calls[0].forceKey, calls[0].e);
      PtsConsecutive(o.c, w, h, calls[1..]);
      var (c', rest) := Run(o.c, w, h, calls[1..]);
      var subs := (if o.sub.Some? then [o.sub.value] else []) + rest;
      forall i | 0 <= i < |subs| && subs[i].key && subs[i].pts != 0
        ensures exists j :: 0 <= j < |calls| && calls[j].forceKey
      {
        if o.sub.Some? && i == 0 {
          assert calls[0].forceKey;
        } else {
          var i' := if o.sub.Some? then i - 1 else i;
          assert rest[i'] == subs[i];
          var j :| 0 <= j < |calls[1..]| && calls[1..][j].forceKey;
          assert calls[j + 1].forceKey;
        }
      }
    }
  }

  /** The encoder's counters and the frame rate it was configured for. */
  class VideoEncoder {
    const width: nat
    const height: nat
    const codec: nat
    const vendor: byte
    var curFps: int
    var frameNum: nat
    var totalFrames: nat
    var failedFrames: nat
    /** The bytes of the packets drained during the current call. */
    var outData: seq<byte>

    function State(): Counters
      reads this
    {
      Counters(frameNum, totalFrames, failedFrames)
    }

    constructor (w: nat, h: nat, fps: int, cc: nat, v: byte)
      ensures width == w && height == h && curFps == fps && codec == cc && vendor == v
      ensures State() == Counters(0, 0, 0) && outData == []
    {
      width, height, curFps, codec, vendor := w, h, fps, cc, v;
      frameNum, totalFrames, failedFrames := 0, 0, 0;
      outData := [];
    }

    method UpdateFPS(fps: int) returns (changed: bool)
      modifies this
      ensures (changed, curFps) == FpsAfter(old(curFps), fps)
      ensures State() == old(State()) && outData == old(outData)
    {
      if fps == curFps || fps < MIN_FPS || fps > MAX_FPS {
        return false;
      }
      curFps := fps;
      return true;
    }

    /** DrainPackets: append every received packet and note any key flag. */
    method Drain(packets: seq<Packet>, gotKey: bool) returns (key: bool)
      modifies this
      ensures outData == old(outData) + Payload(packets)
      ensures key == (gotKey || AnyKey(packets))
      ensures State() == old(State()) && curFps == old(curFps)
    {
      key := gotKey;
      var i := 0;
      while i < |packets|
        invariant 0 <= i <= |packets|
        invariant outData + Payload(packets[i..]) == old(outData) + Payload(packets)
        invariant key == (gotKey || AnyKey(packets[..i]))
        invariant State() == old(State()) && curFps == old(curFps)
      {
        assert packets[..i + 1] == packets[..i] + [packets[i]];
        assert packets[i..][1..] == packets[i + 1..];
        if packets[i].key {
          key := true;
        }
        AnyKeySnoc(packets[..i], packets[i]);
        outData := outData + packets[i].data;
        i := i + 1;
      }
      assert packets[..i] == packets;
    }

    method Encode(tex: Option<Texture>, ts: int, forceKey: bool, e: Codec)
      returns (frame: Option<EncodedFrame>, sub: Option<Submit>)
      modifies this
      ensures var r := EncodeStep(old(State()), width, height, tex, ts, forceKey, e);
        State() == r.c && frame == r.frame && sub == r.sub
      ensures curFps == old(curFps)
    {
      outData := [];
      sub := None;
      frame := None;
      if tex.None? {
        return;
      }
      if tex.value.width != width || tex.value.height != height {
        return;
      }
      if !e.bufferOk {
        failedFrames := failedFrames + 1;
        return;
      }
      if !e.gpuOk {
        failedFrames := failedFrames + 1;
        return;
      }
      frame, sub := Send(ts, forceKey, e);
    }

    /** From the hand-over to the encoder on: pts, send, drain and output. */
    method Send(ts: int, forceKey: bool, e: Codec) returns (frame: Option<EncodedFrame>, sub: Option<Submit>)
      requires e.bufferOk && e.gpuOk && outData == []
      modifies this
      ensures var r := Submitted(old(State()), ts, forceKey, e);
        State() == r.c && frame == r.frame && sub == r.sub
      ensures curFps == old(curFps)
    {
      var needKey := forceKey || frameNum == 0;
      sub := Some(Submit(frameNum, needKey));
      frame := None;
      frameNum := frameNum + 1;
      var gotKey := false;
      var ret := e.first;
      if ret == Again {
        gotKey := Drain(e.early, gotKey);
        ret := e.retry;
      }
      if ret == Again || ret == SendError {
        failedFrames := failedFrames + 1;
        return;
      }
      gotKey := Drain(e.late, gotKey);
      PayloadAppend(if e.first == Again then e.early else [], e.late);
      AnyKeyAppend(if e.first == Again then e.early else [], e.late);
      assert outData == Payload(Drained(e)) && gotKey == AnyKey(Drained(e));
      if outData == [] {
        return;
      }
      frame := Some(EncodedFrame(outData, ts, gotKey));
      totalFrames := totalFrames + 1;
    }
  }

  lemma AnyKeySnoc(ps: seq<Packet>, p: Packet)
    ensures AnyKey(ps + [p]) == (AnyKey(ps) || p.key)
  {
    if AnyKey(ps) {
      var i :| 0 <= i < |ps| && ps[i].key;
      assert (ps + [p])[i].key;
    }
    if p.key {
      assert (ps + [p])[|ps|].key;
    }
  }

  lemma AnyKeyAppend(a: seq<Packet>, b: seq<Packet>)
    ensures AnyKey(a + b) == (AnyKey(a) || AnyKey(b))
  {
    if AnyKey(a) {
      var i :| 0 <= i < |a| && a[i].key;
      assert (a + b)[i].key;
    }
    if AnyKey(b) {
      var i :| 0 <= i < |b| && b[i].key;
      assert (a + b)[|a| + i].key;
    }
    if AnyKey(a + b) {
      var i :| 0 <= i < |a + b| && (a + b)[i].key;
      if i < |a| { assert a[i].key; } else { assert b[i - |a|].key; }
    }
  }

  lemma {:induction false} PayloadAppend(a: seq<Packet>, b: seq<Packet>)
    ensures Payload(a + b) == Payload(a) + Payload(b)
    decreases |a|
  {
    if a != [] {
      assert (a + b)[1..] == a[1..] + b;
      PayloadAppend(a[1..], b);
    } else {
      assert a + b == b;
    }
  }
}
