/**
 * The control channel of client/js/network.js: the length and range gates
 * of `handleControl`, `parseMonitorList`, and what each message changes in
 * the session state kept here (the decoder reset after CODEC_ACK and the
 * deferred `applyFps`/`applyCodec` calls are not part of this model);
 * `validateUsername`. The server's writers of webrtc.cpp
 * (module WebRtc) give the round trips: what the server writes, the client
 * reads back.
 */
module NetworkControl {
  import opened Bytes
  import opened ClientState
  import W = WebRtc
  import Renderer
  import Media

  // ---------------------------------------------------------------------
  // Classifying a message
  // ---------------------------------------------------------------------

  /** Largest clipboard text the client accepts, in bytes. */
  const MAX_CLIPBOARD: nat := 1048576

  /**
   * The longest MONITOR_LIST the server writes: the six-byte head and 16
   * records of at most 72 bytes.
   */
  const MONITOR_LIST_MAX: nat := 6 + 72 * 16

  /**
   * The MONITOR_LIST gate of `handleControl` as written: under 1000 bytes
   * with 1..16 monitors. It turns away lists the server writes (see
   * LongMonitorListIgnored); `Classify` uses the corrected bound.
   */
  predicate ListGateAsWritten(m: seq<byte>)
  {
    6 <= |m| < 1000 && TypeOf(m) == MSG_MONITOR_LIST && 1 <= m[4] as nat <= 16
  }

  /** What `handleControl` makes of a message, after its gates. */
  datatype Control =
    | Invalid
    | Ping(sendUs: nat, serverUs: nat)
    | HostInfo(fps: nat)
    | CodecCaps(caps: nat)
    | CodecAck(codec: nat)
    | FpsAck(fps: nat, mode: nat)
    | MonitorList(count: nat, current: nat)
    | Clipboard(text: Option<seq<byte>>)
    | CursorShape(shape: nat)
    | Kicked
    | Version(version: Option<seq<byte>>)
    | Unknown

  /** The message type: the u32 in the first four bytes. */
  function TypeOf(m: seq<byte>): nat
    requires |m| >= 4
  {
    ReadLE(m[..4])
  }

  /**
   * The gates of `handleControl`, in its order: under four bytes is
   * invalid; each known type is taken only at its exact length (or length
   * range and count); a type whose gate fails, or an unknown type, is
   * ignored. The monitor-list gate admits every list the server can
   * write (up to MONITOR_LIST_MAX bytes) rather than the source's 1000.
   */
  function Classify(m: seq<byte>): Control
  {
    if |m| < 4 then Invalid
    else
      var t := TypeOf(m);
      var n := |m|;
      if t == MSG_PING && n == 24 then Ping(ReadLE(m[8..16]), ReadLE(m[16..24]))
      else if t == MSG_HOST_INFO && n == 6 then HostInfo(ReadLE(m[4..6]))
      else if t == MSG_CODEC_CAPS && n == 5 then CodecCaps(m[4] as nat)
      else if t == MSG_CODEC_ACK && n == 5 then CodecAck(m[4] as nat)
      else if t == MSG_FPS_ACK && n == 7 then FpsAck(ReadLE(m[4..6]), m[6] as nat)
      else if t == MSG_MONITOR_LIST && 6 <= n <= MONITOR_LIST_MAX && 1 <= m[4] as nat <= 16 then MonitorList(m[4] as nat, m[5] as nat)
      else if t == MSG_CLIPBOARD_DATA && n >= 8 then
        var len := ReadLE(m[4..8]);
        Clipboard(if len > 0 && n >= 8 + len && len <= MAX_CLIPBOARD then Some(m[8..8 + len]) else None)
      else if t == MSG_CURSOR_SHAPE && n == 5 then CursorShape(m[4] as nat)
      else if t == MSG_KICKED && n == 4 then Kicked
      else if t == MSG_VERSION && n >= 5 then
        var len := m[4] as nat;
        Version(if n >= 5 + len && len > 0 && len <= 32 then Some(m[5..5 + len]) else None)
      else Unknown
  }

  /** Whether `handleControl` counts the message with `recordPacket(length, 'control')`. */
  predicate Recorded(c: Control)
  {
    !(c.Invalid? || c.Unknown? || c.Kicked?)
  }

  /**
   * The gates as the source states them: a message under four bytes is
   * invalid; a ping is taken only at 24 bytes, a version only with a
   * length byte in 1..32 that the message holds, clipboard text only with
   * 1..1048576 bytes that the message holds, a monitor list only up to
   * MONITOR_LIST_MAX bytes with 1..16 monitors.
   */
  lemma ControlGates(m: seq<byte>)
    ensures Classify(m).Invalid? <==> |m| < 4
    ensures Classify(m).Ping? <==> |m| == 24 && TypeOf(m) == MSG_PING
    ensures Classify(m).MonitorList? <==>
      6 <= |m| <= MONITOR_LIST_MAX && TypeOf(m) == MSG_MONITOR_LIST && 1 <= m[4] as nat <= 16
    ensures Classify(m).Version? && Classify(m).version.Some? ==>
      0 < |Classify(m).version.value| <= 32 && Classify(m).version.value == m[5..5 + m[4] as nat]
    ensures Classify(m).Clipboard? && Classify(m).text.Some? ==>
      0 < |Classify(m).text.value| <= MAX_CLIPBOARD && Classify(m).text.value == m[8..8 + |Classify(m).text.value|]
    ensures Classify(m).Kicked? <==> |m| == 4 && TypeOf(m) == MSG_KICKED
  {
  }

  // ---------------------------------------------------------------------
  // parseMonitorList
  // ---------------------------------------------------------------------

  /** The record at off, if all of it lies inside the message. */
  function EntryAt(m: seq<byte>, off: nat): Option<(Monitor, nat)>
  {
    if off + 9 > |m| then None
    else
      var nl := m[off + 8] as nat;
      if off + 9 + nl > |m| then None
      else Some((Monitor(m[off] as nat, ReadLE(m[off + 1..off + 3]), ReadLE(m[off + 3..off + 5]),
                         ReadLE(m[off + 5..off + 7]), m[off + 7] == 1, m[off + 9..off + 9 + nl]),
                 off + 9 + nl))
  }

  /**
   * The monitors `parseMonitorList` pushes reading count records from off:
   * a record that runs past the end makes `DataView` throw, and the ones
   * pushed before it stay.
   */
  function ParseEntries(m: seq<byte>, off: nat, count: nat): (ms: seq<Monitor>)
    ensures |ms| <= count
    decreases count
  {
    if count == 0 then []
    else match EntryAt(m, off)
      case None => []
      case Some((mon, next)) => [mon] + ParseEntries(m, next, count - 1)
  }

  /** `parseMonitorList(data)`: the current monitor, then every record in order. */
  method ParseMonitorList(s: Session, m: seq<byte>)
    requires |m| >= 6
    modifies s`monitors, s`currentMon
    ensures s.currentMon == m[5] as nat
    ensures s.monitors == ParseEntries(m, 6, m[4] as nat)
  {
    s.currentMon := m[5] as nat;
    var count := m[4] as nat;
    var monitors := [];
    var off := 6;
    var i := 0;
    while i < count
      invariant i <= count
      invariant monitors + ParseEntries(m, off, count - i) == ParseEntries(m, 6, count)
    {
      var e := EntryAt(m, off);
      if e.None? {
        assert monitors + [] == monitors;
        break;
      }
      var mon := e.value.0;
      assert ParseEntries(m, off, count - i) == [mon] + ParseEntries(m, e.value.1, count - i - 1);
      monitors := monitors + [mon];
      off := e.value.1;
      i := i + 1;
    }
    assert monitors + [] == monitors;
    s.monitors := monitors;
  }

  // ---------------------------------------------------------------------
  // The session fields the control channel changes
  // ---------------------------------------------------------------------

  datatype ControlView = ControlView(
    clock: ClockSync, net: NetMetrics, hostFps: nat, hostCodecs: nat, currentCodec: nat,
    currentFps: nat, currentFpsMode: nat, monitors: seq<Monitor>, currentMon: nat,
    hostVersion: Option<seq<byte>>, cursor: string, waitingFirstFrame: bool, hasConnection: bool,
    keyReqTimer: bool, kfRetry: bool, ctrlOpen: bool, jitter: Jitter, hasValidTexture: bool,
    lastViewport: Option<Viewport>)

  function CtrlView(s: Session): ControlView
    reads s
  {
    ControlView(s.clock, s.net, s.hostFps, s.hostCodecs, s.currentCodec, s.currentFps, s.currentFpsMode,
                s.monitors, s.currentMon, s.hostVersion, s.cursor, s.waitingFirstFrame, s.hasConnection,
                s.keyReqTimer, s.kfRetry, s.ctrlOpen, s.jitter, s.hasValidTexture, s.lastViewport)
  }

  /** `recordPacket(length, 'control')`. */
  function Count(c: ControlView, size: nat): ControlView
  {
    c.(net := RecordPacket(c.net, size, "control"))
  }

  /**
   * `cleanup()` after KICKED: the pending key request and the retry timer
   * stop, the renderer and clock sync reset, the channels close, and the
   * connection is gone.
   */
  function Cleanup(c: ControlView): ControlView
  {
    c.(keyReqTimer := false, kfRetry := false, clock := FRESH_CLOCK, ctrlOpen := false, hasConnection := false,
       jitter := c.jitter.(lastPresentTs := 0.0), hasValidTexture := false, lastViewport := None,
       cursor := "default")
  }

  /** What `handleControl(m)` does to the session, the message arriving at arrivalUs. */
  function OnControl(c: ControlView, m: seq<byte>, arrivalUs: int, relative: bool, locked: bool): ControlView
  {
    Effect(c, Classify(m), m, arrivalUs, relative, locked)
  }

  /** The effect of a message m that the gates classified as k. */
  function Effect(c: ControlView, k: Control, m: seq<byte>, arrivalUs: int, relative: bool, locked: bool): ControlView
  {
    match k
    case Invalid => c
    case Unknown => c
    case Ping(sendUs, serverUs) => Count(c.(clock := UpdateClock(c.clock, sendUs, serverUs, arrivalUs)), |m|)
    case HostInfo(fps) =>
      Count(c.(hostFps := fps, waitingFirstFrame := c.waitingFirstFrame || !c.hasConnection), |m|)
    case CodecCaps(caps) => Count(c.(hostCodecs := caps), |m|)
    case CodecAck(codec) => Count(c.(currentCodec := codec), |m|)
    case FpsAck(fps, mode) => Count(c.(currentFps := fps, currentFpsMode := mode), |m|)
    case MonitorList(count, current) => Count(c, |m|).(currentMon := current, monitors := ParseEntries(m, 6, count))
    case Clipboard(_) => Count(c, |m|)
    case CursorShape(shape) => Count(c.(cursor := Renderer.CursorStyle(shape, relative, locked)), |m|)
    case Kicked => Cleanup(c)
    case Version(v) => Count(if v.Some? then c.(hostVersion := v) else c, |m|)
  }

  /**
   * Every message the gates let through is counted once as control
   * traffic, and the rest change nothing, except KICKED, which tears the
   * connection down uncounted.
   */
  lemma ControlCounted(c: ControlView, k: Control, m: seq<byte>, arrivalUs: int, relative: bool, locked: bool)
    ensures var r := Effect(c, k, m, arrivalUs, relative, locked);
      (Recorded(k) <==> r.net.packetsReceived == c.net.packetsReceived + 1) &&
      (Recorded(k) ==> r.net == RecordPacket(c.net, |m|, "control"))
  {
    EffectNet(c, k, m, arrivalUs, relative, locked);
  }

  /** The metrics after a message: one control packet more, or none. */
  lemma EffectNet(c: ControlView, k: Control, m: seq<byte>, arrivalUs: int, relative: bool, locked: bool)
    ensures Effect(c, k, m, arrivalUs, relative, locked).net ==
      if Recorded(k) then RecordPacket(c.net, |m|, "control") else c.net
  {
    match k
    case Invalid =>
    case Unknown =>
    case Kicked =>
    case Ping(_, _) =>
    case HostInfo(_) =>
    case CodecCaps(_) =>
    case CodecAck(_) =>
    case FpsAck(_, _) =>
    case MonitorList(_, _) =>
    case Clipboard(_) =>
    case CursorShape(_) =>
    case Version(_) =>
  }

  /** An invalid or unknown message leaves the session as it was; KICKED tears the connection down. */
  lemma ControlIgnored(c: ControlView, k: Control, m: seq<byte>, arrivalUs: int, relative: bool, locked: bool)
    ensures var r := Effect(c, k, m, arrivalUs, relative, locked);
      (k.Invalid? || k.Unknown? ==> r == c) &&
      (k.Kicked? ==> r.net == c.net && !r.hasConnection && !r.ctrlOpen && !r.clock.valid && !r.kfRetry)
  {
  }

  // ---------------------------------------------------------------------
  // handleControl on the session
  // ---------------------------------------------------------------------

  /** `recordPacket(length, 'control')` on the session. */
  method CountControl(s: Session, size: nat)
    modifies s`net
    ensures CtrlView(s) == Count(old(CtrlView(s)), size)
  {
    s.RecordPacketOf(size, "control");
  }

  /** The timers `cleanup()` clears: the pending key request and `stopKeyframeRetry()`. */
  method StopTimers(s: Session)
    modifies s`keyReqTimer, s`kfRetry
    ensures CtrlView(s) == old(CtrlView(s)).(keyReqTimer := false, kfRetry := false)
  {
    s.keyReqTimer := false;
    Media.StopKeyframeRetry(s);
    assert !s.View().kfRetry;
  }

  /** `resetRenderer()` and `resetClockSync()`. */
  method ResetPlayback(s: Session)
    modifies s`jitter, s`hasValidTexture, s`lastViewport, s`cursor, s`clock
    ensures CtrlView(s) == old(CtrlView(s)).(jitter := old(s.jitter).(lastPresentTs := 0.0), hasValidTexture := false,
                                            lastViewport := None, cursor := "default", clock := FRESH_CLOCK)
  {
    Renderer.ResetRenderer(s);
    s.ResetClockSync();
  }

  /** `cleanup()` on the session, and `hasConnection = false`. */
  method CleanupSession(s: Session)
    modifies s`keyReqTimer, s`kfRetry, s`clock, s`ctrlOpen, s`hasConnection, s`jitter, s`hasValidTexture,
             s`lastViewport, s`cursor
    ensures CtrlView(s) == Cleanup(old(CtrlView(s)))
  {
    StopTimers(s);
    ResetPlayback(s);
    s.ctrlOpen := false;
    s.hasConnection := false;
  }

  /** PING: `updateClockOffset(clientTime, serverTime, arrival)`, then the count. */
  method TakePing(s: Session, sendUs: nat, serverUs: nat, m: seq<byte>, arrivalUs: int)
    modifies s`clock, s`net
    ensures CtrlView(s) ==
      Effect(old(CtrlView(s)), Ping(sendUs, serverUs), m, arrivalUs, s.relativeMouseMode, s.pointerLocked)
  {
    s.UpdateClockOffset(sendUs, serverUs, arrivalUs);
    CountControl(s, |m|);
  }

  /** HOST_INFO: the host's frame rate; a session not yet connected starts waiting for its first frame. */
  method TakeHostInfo(s: Session, fps: nat, m: seq<byte>, arrivalUs: int)
    modifies s`hostFps, s`waitingFirstFrame, s`net
    ensures CtrlView(s) == Effect(old(CtrlView(s)), HostInfo(fps), m, arrivalUs, s.relativeMouseMode, s.pointerLocked)
  {
    s.hostFps := fps;
    if !s.hasConnection {
      s.waitingFirstFrame := true;
    }
    CountControl(s, |m|);
  }

  /** CODEC_CAPS: `setHostCodecs(caps)`. */
  method TakeCodecCaps(s: Session, caps: nat, m: seq<byte>, arrivalUs: int)
    modifies s`hostCodecs, s`net
    ensures CtrlView(s) == Effect(old(CtrlView(s)), CodecCaps(caps), m, arrivalUs, s.relativeMouseMode, s.pointerLocked)
  {
    s.hostCodecs := caps;
    CountControl(s, |m|);
  }

  /** CODEC_ACK: the codec the host now encodes with. */
  method TakeCodecAck(s: Session, codec: nat, m: seq<byte>, arrivalUs: int)
    modifies s`currentCodec, s`net
    ensures CtrlView(s) == Effect(old(CtrlView(s)), CodecAck(codec), m, arrivalUs, s.relativeMouseMode, s.pointerLocked)
  {
    s.currentCodec := codec;
    CountControl(s, |m|);
  }

  /** FPS_ACK: the rate and mode the host applied. */
  method TakeFpsAck(s: Session, fps: nat, mode: nat, m: seq<byte>, arrivalUs: int)
    modifies s`currentFps, s`currentFpsMode, s`net
    ensures CtrlView(s) == Effect(old(CtrlView(s)), FpsAck(fps, mode), m, arrivalUs, s.relativeMouseMode, s.pointerLocked)
  {
    s.currentFps := fps;
    s.currentFpsMode := mode;
    CountControl(s, |m|);
  }

  /** MONITOR_LIST: the count, then `parseMonitorList`. */
  method TakeMonitorList(s: Session, m: seq<byte>, arrivalUs: int)
    requires |m| >= 6
    modifies s`monitors, s`currentMon, s`net
    ensures CtrlView(s) == Effect(old(CtrlView(s)), MonitorList(m[4] as nat, m[5] as nat), m, arrivalUs,
                                  s.relativeMouseMode, s.pointerLocked)
  {
    CountControl(s, |m|);
    ParseMonitorList(s, m);
  }

  /** CURSOR_SHAPE: `setCursorStyle(shape)`, then the count. */
  method TakeCursorShape(s: Session, shape: nat, m: seq<byte>, arrivalUs: int)
    modifies s`cursor, s`net
    ensures CtrlView(s) == Effect(old(CtrlView(s)), CursorShape(shape), m, arrivalUs, s.relativeMouseMode, s.pointerLocked)
  {
    Renderer.SetCursorStyle(s, shape);
    CountControl(s, |m|);
  }

  /** VERSION: a version that passed the gate is kept; the message is counted either way. */
  method TakeVersion(s: Session, v: Option<seq<byte>>, m: seq<byte>, arrivalUs: int)
    modifies s`hostVersion, s`net
    ensures CtrlView(s) == Effect(old(CtrlView(s)), Version(v), m, arrivalUs, s.relativeMouseMode, s.pointerLocked)
  {
    if v.Some? {
      s.hostVersion := v;
    }
    CountControl(s, |m|);
  }

  /** A monitor list the gates let through carries its count and current index in bytes 4 and 5. */
  lemma MonitorListFields(m: seq<byte>)
    requires Classify(m).MonitorList?
    ensures |m| >= 6 && Classify(m) == MonitorList(m[4] as nat, m[5] as nat)
  {
  }

  /** `handleControl(e)` for a message m that arrives at arrivalUs. */
  method HandleControl(s: Session, m: seq<byte>, arrivalUs: int)
    modifies s`clock, s`net, s`hostFps, s`hostCodecs, s`currentCodec, s`currentFps, s`currentFpsMode,
             s`monitors, s`currentMon, s`hostVersion, s`cursor, s`waitingFirstFrame, s`hasConnection,
             s`keyReqTimer, s`kfRetry, s`ctrlOpen, s`jitter, s`hasValidTexture, s`lastViewport
    ensures CtrlView(s) == OnControl(old(CtrlView(s)), m, arrivalUs, s.relativeMouseMode, s.pointerLocked)
  {
    var c := Classify(m);
    match c
    case Invalid =>
    case Unknown =>
    case Ping(sendUs, serverUs) => TakePing(s, sendUs, serverUs, m, arrivalUs);
    case HostInfo(fps) => TakeHostInfo(s, fps, m, arrivalUs);
    case CodecCaps(caps) => TakeCodecCaps(s, caps, m, arrivalUs);
    case CodecAck(codec) => TakeCodecAck(s, codec, m, arrivalUs);
    case FpsAck(fps, mode) => TakeFpsAck(s, fps, mode, m, arrivalUs);
    case MonitorList(_, _) =>
      MonitorListFields(m);
      TakeMonitorList(s, m, arrivalUs);
    case Clipboard(_) => CountControl(s, |m|);
    case CursorShape(shape) => TakeCursorShape(s, shape, m, arrivalUs);
    case Kicked => CleanupSession(s);
    case Version(v) => TakeVersion(s, v, m, arrivalUs);
  }

  // ---------------------------------------------------------------------
  // Round trips with the server's writers
  // ---------------------------------------------------------------------

  /** The 16-byte ping `sendPing` writes: type, four zero bytes, the client's u64 time. */
  function PingMessage(clientUs: int): seq<byte>
  {
    LE(MSG_PING, 4) + [0, 0, 0, 0] + LE(Wrap(clientUs, 8), 8)
  }

  /** A field of n bytes at offset |a| of a + LE(x, n) + b reads back as x. */
  lemma ReadBack(a: seq<byte>, x: nat, n: nat, b: seq<byte>)
    requires x < Pow256(n)
    ensures (a + LE(x, n) + b)[|a|..|a| + n] == LE(x, n)
    ensures ReadLE((a + LE(x, n) + b)[|a|..|a| + n]) == x
  {
    assert (a + LE(x, n) + b)[|a|..|a| + n] == LE(x, n);
    ReadLEOfLE(x, n);
  }

  /** The type field of a message written as LE(t, 4) + rest. */
  lemma TypeBack(t: nat, rest: seq<byte>)
    requires t < TWO32
    ensures TypeOf(LE(t, 4) + rest) == t
  {
    Pow256Values();
    ReadBack([], t, 4, rest);
    assert [] + LE(t, 4) + rest == LE(t, 4) + rest;
  }

  /**
   * The server answers the client's ping with the same 16 bytes and its
   * own u64 clock; the client reads back both times, so the probe reaches
   * `updateClockOffset` intact.
   */
  lemma PingRoundTrip(clientUs: int, serverUs: nat)
    ensures |W.PingReply(PingMessage(clientUs), serverUs)| == 24
    ensures Classify(W.PingReply(PingMessage(clientUs), serverUs)) == Ping(Wrap(clientUs, 8), Wrap(serverUs, 8))
  {
    Pow256Values();
    var p := PingMessage(clientUs);
    var r := W.PingReply(p, serverUs);
    var head := LE(MSG_PING, 4) + [0, 0, 0, 0];
    assert r == head + LE(Wrap(clientUs, 8), 8) + LE(Wrap(serverUs, 8), 8);
    TypeBack(MSG_PING, r[4..]);
    assert LE(MSG_PING, 4) + r[4..] == r;
    ReadBack(head, Wrap(clientUs, 8), 8, LE(Wrap(serverUs, 8), 8));
    ReadBack(head + LE(Wrap(clientUs, 8), 8), Wrap(serverUs, 8), 8, []);
    assert head + LE(Wrap(clientUs, 8), 8) + LE(Wrap(serverUs, 8), 8) + [] == r;
  }

  /** HOST_INFO carries the host's frame rate, truncated to 16 bits. */
  lemma HostInfoRoundTrip(hostFps: int)
    ensures Classify(W.HostInfoMessage(hostFps)) == HostInfo(Wrap(hostFps, 2))
  {
    Pow256Values();
    var r := W.HostInfoMessage(hostFps);
    TypeBack(MSG_HOST_INFO, LE(Wrap(hostFps, 2), 2));
    ReadBack(LE(MSG_HOST_INFO, 4), Wrap(hostFps, 2), 2, []);
    assert LE(MSG_HOST_INFO, 4) + LE(Wrap(hostFps, 2), 2) + [] == r;
  }

  /** CODEC_CAPS carries the host's codec bitmask. */
  lemma CodecCapsRoundTrip(caps: byte)
    ensures Classify(W.CodecCapsMessage(caps)) == CodecCaps(caps as nat)
  {
    Pow256Values();
    TypeBack(MSG_CODEC_CAPS, [caps]);
  }

  /** CODEC_ACK carries the codec in use, truncated to a byte. */
  lemma CodecAckRoundTrip(codec: nat)
    ensures Classify(W.CodecAckMessage(codec)) == CodecAck(U8(codec) as nat)
  {
    Pow256Values();
    TypeBack(MSG_CODEC_ACK, [U8(codec)]);
  }

  /** FPS_ACK carries the rate in force, truncated to 16 bits, and the mode. */
  lemma FpsAckRoundTrip(fps: int, mode: nat)
    requires mode < 256
    ensures Classify(W.FpsAckMessage(fps, mode)) == FpsAck(Wrap(fps, 2), mode)
  {
    Pow256Values();
    var r := W.FpsAckMessage(fps, mode);
    TypeBack(MSG_FPS_ACK, r[4..]);
    assert LE(MSG_FPS_ACK, 4) + r[4..] == r;
    ReadBack(LE(MSG_FPS_ACK, 4), Wrap(fps, 2), 2, [mode as byte]);
    ByteValue(mode);
  }

  /** A version of 1 to 32 bytes arrives whole; the client ignores an empty or longer one. */
  lemma VersionRoundTrip(ver: seq<byte>)
    requires |ver| < 256
    ensures 0 < |ver| <= 32 ==> Classify(W.VersionMessage(ver)) == Version(Some(ver))
    ensures |ver| == 0 || |ver| > 32 ==> Classify(W.VersionMessage(ver)) == Version(None)
  {
    Pow256Values();
    var r := W.VersionMessage(ver);
    TypeBack(MSG_VERSION, r[4..]);
    assert LE(MSG_VERSION, 4) + r[4..] == r;
    assert r[4] == U8(|ver|);
    assert U8(|ver|) as nat == |ver|;
    assert r[5..5 + |ver|] == ver;
  }

  /** Clipboard text of 1 to 1048576 bytes arrives whole. */
  lemma ClipboardRoundTrip(text: seq<byte>)
    requires 0 < |text| <= MAX_CLIPBOARD
    ensures Classify(W.ClipboardMessage(text)) == Clipboard(Some(text))
  {
    Pow256Values();
    var r := W.ClipboardMessage(text);
    TypeBack(MSG_CLIPBOARD_DATA, r[4..]);
    assert LE(MSG_CLIPBOARD_DATA, 4) + r[4..] == r;
    ReadBack(LE(MSG_CLIPBOARD_DATA, 4), |text|, 4, text);
    assert r[8..8 + |text|] == text;
  }

  /** A monitor as the client reads back the server's record of it. */
  function ReadBackMonitor(mi: W.MonitorInfo): Monitor
  {
    Monitor(U8(mi.index) as nat, Wrap(mi.width, 2), Wrap(mi.height, 2), Wrap(mi.refreshRate, 2), mi.isPrimary,
            mi.name[..W.NameLen(mi)])
  }

  /** The server's record of mi, wherever it sits in a message, parses back to ReadBackMonitor(mi). */
  lemma EntryRoundTrip(pre: seq<byte>, mi: W.MonitorInfo, post: seq<byte>)
    ensures EntryAt(pre + W.MonitorEntry(mi) + post, |pre|) ==
      Some((ReadBackMonitor(mi), |pre| + |W.MonitorEntry(mi)|))
  {
    Pow256Values();
    var e := W.MonitorEntry(mi);
    var m := pre + e + post;
    var o := |pre|;
    var nl := W.NameLen(mi);
    assert m[o..o + |e|] == e;
    var w2 := LE(Wrap(mi.width, 2), 2);
    var h2 := LE(Wrap(mi.height, 2), 2);
    var r2 := LE(Wrap(mi.refreshRate, 2), 2);
    assert e == [U8(mi.index)] + w2 + h2 + r2 + [if mi.isPrimary then 1 else 0] + [nl as byte] + mi.name[..nl];
    assert m[o] == U8(mi.index);
    assert m[o + 1..o + 3] == w2;
    assert m[o + 3..o + 5] == h2;
    assert m[o + 5..o + 7] == r2;
    assert m[o + 7] == if mi.isPrimary then 1 else 0;
    assert m[o + 8] == nl as byte;
    ByteValue(nl);
    assert m[o + 9..o + 9 + nl] == mi.name[..nl];
    ReadLEOfLE(Wrap(mi.width, 2), 2);
    ReadLEOfLE(Wrap(mi.height, 2), 2);
    ReadLEOfLE(Wrap(mi.refreshRate, 2), 2);
  }

  /** The server's records, read from the front, after any head. */
  lemma {:induction false} EntriesRoundTrip(pre: seq<byte>, ms: seq<W.MonitorInfo>)
    ensures ParseEntries(pre + W.MonitorEntries(ms, |ms|), |pre|, |ms|) == Decoded(ms)
    decreases |ms|
  {
    if |ms| > 0 {
      var e := W.MonitorEntry(ms[0]);
      var rest := W.MonitorEntries(ms[1..], |ms| - 1);
      var msg := pre + W.MonitorEntries(ms, |ms|);
      EntriesSplit(pre, ms);
      EntryRoundTrip(pre, ms[0], rest);
      ParseEntriesStep(msg, |pre|, |ms|, ReadBackMonitor(ms[0]), |pre + e|);
      EntriesRoundTrip(pre + e, ms[1..]);
    }
  }

  /** The message regrouped around the first record. */
  lemma EntriesSplit(pre: seq<byte>, ms: seq<W.MonitorInfo>)
    requires |ms| > 0
    ensures pre + W.MonitorEntries(ms, |ms|) ==
      pre + W.MonitorEntry(ms[0]) + W.MonitorEntries(ms[1..], |ms| - 1)
    ensures pre + W.MonitorEntries(ms, |ms|) ==
      (pre + W.MonitorEntry(ms[0])) + W.MonitorEntries(ms[1..], |ms[1..]|)
    ensures |pre + W.MonitorEntry(ms[0])| == |pre| + |W.MonitorEntry(ms[0])|
  {
    EntriesFront(ms, |ms|);
  }

  /** One record read, then the rest. */
  lemma ParseEntriesStep(m: seq<byte>, off: nat, count: nat, mon: Monitor, next: nat)
    requires count > 0 && EntryAt(m, off) == Some((mon, next))
    ensures ParseEntries(m, off, count) == [mon] + ParseEntries(m, next, count - 1)
  {
  }

  /** Every monitor read back, in order. */
  function Decoded(ms: seq<W.MonitorInfo>): (r: seq<Monitor>)
    ensures |r| == |ms|
  {
    if |ms| == 0 then [] else [ReadBackMonitor(ms[0])] + Decoded(ms[1..])
  }

  /** The records of n monitors are the first one's record followed by the rest's. */
  lemma {:induction false} EntriesFront(ms: seq<W.MonitorInfo>, n: nat)
    requires 0 < n <= |ms|
    ensures W.MonitorEntries(ms, n) == W.MonitorEntry(ms[0]) + W.MonitorEntries(ms[1..], n - 1)
  {
    if n > 1 {
      EntriesFront(ms, n - 1);
      assert ms[1..][n - 2] == ms[n - 1];
    }
  }

  /**
   * A MONITOR_LIST the server writes for 1 to 16 monitors passes the
   * client's corrected gate, and the client reads back the current
   * monitor and every monitor in order, each field as the server
   * truncated it.
   */
  lemma MonitorListRoundTrip(ms: seq<W.MonitorInfo>, current: int)
    requires 1 <= |ms| <= 16
    ensures var msg := W.MonitorListMessage(ms, current);
      Classify(msg) == MonitorList(|ms|, U8(current) as nat) && ParseEntries(msg, 6, |ms|) == Decoded(ms)
  {
    ListClassified(ms, current);
    var head := W.MonitorListHead(|ms|, current);
    assert W.MonitorListMessage(ms, current) == head + W.MonitorEntries(ms, |ms|);
    EntriesRoundTrip(head, ms);
  }

  /** The gates take the server's list of 1 to 16 monitors as a monitor list with its count and current index. */
  lemma ListClassified(ms: seq<W.MonitorInfo>, current: int)
    requires 1 <= |ms| <= 16
    ensures Classify(W.MonitorListMessage(ms, current)) == MonitorList(|ms|, U8(current) as nat)
  {
    Pow256Values();
    var msg := W.MonitorListMessage(ms, current);
    TypeBack(MSG_MONITOR_LIST, msg[4..]);
    assert LE(MSG_MONITOR_LIST, 4) + msg[4..] == msg;
    assert msg[4] == U8(|ms|) && msg[5] == U8(current);
    SmallCount(|ms|);
    ListFits(ms, current);
    ClassifyMonitorList(msg);
  }

  /** A message of MONITOR_LIST type within the gates is a monitor list with its count and current index. */
  lemma ClassifyMonitorList(m: seq<byte>)
    requires 6 <= |m| <= MONITOR_LIST_MAX && TypeOf(m) == MSG_MONITOR_LIST && 1 <= m[4] as nat <= 16
    ensures Classify(m) == MonitorList(m[4] as nat, m[5] as nat)
  {
  }

  /**
   * The server can write a list the client ignores: fourteen monitors
   * with 63-byte names make a 1014-byte message, past the 1000-byte gate
   * as written, while the corrected gate takes it.
   */
  lemma LongMonitorListIgnored(ms: seq<W.MonitorInfo>, current: int)
    requires |ms| == 14 && forall i :: 0 <= i < 14 ==> |ms[i].name| >= 63
    ensures |W.MonitorListMessage(ms, current)| == 1014
    ensures !ListGateAsWritten(W.MonitorListMessage(ms, current))
    ensures Classify(W.MonitorListMessage(ms, current)).MonitorList?
  {
    EntriesLength(ms, 14);
    MonitorListRoundTrip(ms, current);
  }

  /** A monitor count fits its byte unchanged. */
  lemma SmallCount(n: nat)
    requires n <= 16
    ensures U8(n) as nat == n
  {
  }

  /** Every list of at most 16 monitors the server writes fits the corrected gate. */
  lemma ListFits(ms: seq<W.MonitorInfo>, current: int)
    requires |ms| <= 16
    ensures |W.MonitorListMessage(ms, current)| <= MONITOR_LIST_MAX
  {
    EntriesAtMost(ms, |ms|);
  }

  /** Records take at most 72 bytes each. */
  lemma {:induction false} EntriesAtMost(ms: seq<W.MonitorInfo>, n: nat)
    requires n <= |ms|
    ensures |W.MonitorEntries(ms, n)| <= 72 * n
  {
    if n > 0 {
      EntriesAtMost(ms, n - 1);
    }
  }

  /** Records of monitors with names of 63 bytes or more take 72 bytes each. */
  lemma {:induction false} EntriesLength(ms: seq<W.MonitorInfo>, n: nat)
    requires n <= |ms| && forall i :: 0 <= i < n ==> |ms[i].name| >= 63
    ensures |W.MonitorEntries(ms, n)| == 72 * n
  {
    if n > 0 {
      EntriesLength(ms, n - 1);
    }
  }

  // ---------------------------------------------------------------------
  // validateUsername
  // ---------------------------------------------------------------------

  /** One character of `[a-zA-Z0-9_-]`. */
  predicate UsernameChar(c: char)
  {
    ('a' <= c <= 'z') || ('A' <= c <= 'Z') || ('0' <= c <= '9') || c == '_' || c == '-'
  }

  /** `validateUsername(u)`: 3 to 32 characters, each a letter, digit, '_' or '-'. */
  predicate ValidUsername(u: string)
  {
    3 <= |u| <= 32 && forall i :: 0 <= i < |u| ==> UsernameChar(u[i])
  }
}
