/**
 * The server side of the WebRTC transport (src/webrtc.cpp): the video
 * packetiser `Send`, which cuts an encoded frame into DATA_CHUNK-sized
 * chunks and adds one XOR parity chunk per full group of four, the
 * control-channel handler `HandleCtrl`, the channel open and close
 * handlers, the monitor-list and version writers, the video drain and the
 * staleness test.
 *
 * Channels are sinks: video packets wait in `vidQ` until `DrainVideo`
 * hands them to the video channel, which records them in `vidOut`, and a
 * control message sent while the control channel is open is appended to
 * `ctrlOut`. How much the video channel takes and which sends throw are
 * parameters (`Link`). Callbacks into the application are recorded in
 * `events`, and their answers are parameters.
 */
module WebRtc {
  import opened Bytes
  import opened VideoHeader

  const CHUNK: nat := 1400
  /** Payload bytes per video packet once the 31-byte header is written. */
  const DATA_CHUNK: nat := CHUNK - HEADER_SIZE
  const FEC_GROUP_SIZE: nat := 4
  const NUM_CH: nat := 5

  /** The five data channels a peer announces, by label (src/webrtc.cpp:409-431). */
  datatype Channel = Control | Video | Audio | Input | Mic

  /** How many of the five channels `s` holds. */
  function OpenCount(s: set<Channel>): (n: nat)
    ensures n <= NUM_CH
  {
    (if Control in s then 1 else 0) + (if Video in s then 1 else 0) + (if Audio in s then 1 else 0) +
    (if Input in s then 1 else 0) + (if Mic in s then 1 else 0)
  }

  /** Opening a channel that was not open adds one to the count. */
  lemma OpenCountAdd(s: set<Channel>, ch: Channel)
    requires ch !in s
    ensures OpenCount(s + {ch}) == OpenCount(s) + 1
  {
  }

  /** Once all five channels are open, the control channel is one of them. */
  lemma FullIncludesControl(open: set<Channel>)
    requires OpenCount(open) >= NUM_CH
    ensures Control in open
  {
  }

  const KEY_REQ_MIN_INTERVAL_MS: int := 350
  const MAX_CLIPBOARD: nat := 1048576

  // Control message magics (include/common.hpp).
  const MSG_PING: nat := 0x504E4750
  const MSG_FPS_SET: nat := 0x46505343
  const MSG_HOST_INFO: nat := 0x484F5354
  const MSG_FPS_ACK: nat := 0x46505341
  const MSG_REQUEST_KEY: nat := 0x4B455952
  const MSG_MONITOR_LIST: nat := 0x4D4F4E4C
  const MSG_MONITOR_SET: nat := 0x4D4F4E53
  const MSG_CODEC_SET: nat := 0x434F4443
  const MSG_CODEC_ACK: nat := 0x434F4441
  const MSG_CODEC_CAPS: nat := 0x434F4350
  const MSG_CLIPBOARD_DATA: nat := 0x434C4950
  const MSG_CLIPBOARD_GET: nat := 0x434C4754
  const MSG_CURSOR_CAPTURE: nat := 0x43555243
  const MSG_AUDIO_ENABLE: nat := 0x41554445
  const MSG_MIC_ENABLE: nat := 0x4D494345
  const MSG_VERSION: nat := 0x56455253

  // ---------------------------------------------------------------------
  // Chunking and parity, as functions of the frame bytes
  // ---------------------------------------------------------------------

  /** The frame sizes `Send` accepts for a payload size d. */
  predicate Sendable(data: seq<byte>, d: nat)
  {
    0 < d < TWO16 && 0 < |data| <= d * 65535
  }

  /**
   * The number of data chunks: the remaining bytes are cut d at a time.
   * `Send` computes it as ceil(sz / d) (see `NumChunksIsCeil`); the
   * recursive form keeps the solver's arithmetic linear.
   */
  function NumChunks(sz: nat, d: nat): nat
    requires d > 0
    decreases sz
  {
    if sz == 0 then 0 else 1 + NumChunks(sz - Min(sz, d), d)
  }

  /** Number of parity groups the loop `for g; g * 4 < nch` visits. */
  function NumGroups(nch: nat): nat
  {
    (nch + FEC_GROUP_SIZE - 1) / FEC_GROUP_SIZE
  }

  /** The last chunk starts inside the frame and the chunks cover all of it. */
  lemma {:induction false} ChunkCountFacts(sz: nat, d: nat)
    requires 0 < d && 0 < sz
    ensures NumChunks(sz, d) >= 1
    ensures Offset(NumChunks(sz, d) - 1, d) < sz <= Offset(NumChunks(sz, d), d)
    decreases sz
  {
    if sz > d {
      ChunkCountFacts(sz - d, d);
    }
  }

  /** A frame that fits k chunks' worth of bytes needs at most k chunks. */
  lemma {:induction false} NumChunksBound(sz: nat, d: nat, k: nat)
    requires 0 < d && sz <= Offset(k, d)
    ensures NumChunks(sz, d) <= k
    decreases sz
  {
    if sz > 0 {
      NumChunksBound(sz - Min(sz, d), d, k - 1);
    }
  }

  /** The recursive count is the `(sz + d - 1) / d` that `Send` computes. */
  lemma NumChunksIsCeil(sz: nat, d: nat)
    requires 0 < d && 0 < sz
    ensures NumChunks(sz, d) == (sz + d - 1) / d
  {
    var n := NumChunks(sz, d);
    ChunkCountFacts(sz, d);
    OffsetIsProduct(n - 1, d);
    OffsetIsProduct(n, d);
    assert n * d == (n - 1) * d + d;
    DivUnique(sz + d - 1, d, n);
  }

  /** A sendable frame has at most 65535 chunks, so indices fit the u16 header fields. */
  lemma SendableChunks(data: seq<byte>, d: nat)
    requires Sendable(data, d)
    ensures 1 <= NumChunks(|data|, d) <= 65535
  {
    ChunkCountFacts(|data|, d);
    OffsetIsProduct(65535, d);
    NumChunksBound(|data|, d, 65535);
  }

  /** Chunk i covers bytes [i*d, min((i+1)*d, sz)). */
  function Chunk(data: seq<byte>, d: nat, i: nat): (r: seq<byte>)
    requires 0 < d && i < NumChunks(|data|, d)
    ensures 0 < |r| <= d
  {
    ChunkStartInRange(|data|, d, i);
    data[Offset(i, d) .. Min(Offset(i, d) + d, |data|)]
  }

  lemma ChunkStartInRange(sz: nat, d: nat, i: nat)
    requires 0 < d && i < NumChunks(sz, d)
    ensures Offset(i, d) < sz
  {
    ChunkCountFacts(sz, d);
    OffsetMono(i, NumChunks(sz, d) - 1, d);
  }

  /** The loop condition `g * 4 < nch` is exactly "g is a group index". */
  lemma GroupBound(nch: nat, g: nat)
    ensures g < NumGroups(nch) <==> g * FEC_GROUP_SIZE < nch
  {
  }

  /** Every chunk but the last is exactly d bytes; the last holds the remainder. */
  lemma ChunkLength(data: seq<byte>, d: nat, i: nat)
    requires 0 < d && i < NumChunks(|data|, d)
    ensures i < NumChunks(|data|, d) - 1 ==> |Chunk(data, d, i)| == d
    ensures i == NumChunks(|data|, d) - 1 ==> |Chunk(data, d, i)| == |data| - Offset(i, d)
  {
    var n := NumChunks(|data|, d);
    ChunkCountFacts(|data|, d);
    if i < n - 1 {
      OffsetMono(i + 1, n - 1, d);
    }
  }

  /** The chunks with indices lo..hi-1. */
  function Chunks(data: seq<byte>, d: nat, lo: nat, hi: nat): (r: seq<seq<byte>>)
    requires 0 < d && lo <= hi <= NumChunks(|data|, d)
    ensures |r| == hi - lo
    decreases hi - lo
  {
    if lo == hi then [] else Chunks(data, d, lo, hi - 1) + [Chunk(data, d, hi - 1)]
  }

  /** No chunk, hence no parity, is longer than d. */
  lemma {:induction false} ChunksMaxLen(data: seq<byte>, d: nat, lo: nat, hi: nat)
    requires 0 < d && lo <= hi <= NumChunks(|data|, d)
    ensures MaxLen(Chunks(data, d, lo, hi)) <= d
    decreases hi - lo
  {
    if lo < hi {
      ChunksMaxLen(data, d, lo, hi - 1);
      MaxLenSnoc(Chunks(data, d, lo, hi - 1), Chunk(data, d, hi - 1));
    }
  }

  /** Chunk i is the slice of d bytes (fewer at the end) starting at its offset. */
  lemma ChunkIs(data: seq<byte>, d: nat, i: nat)
    requires 0 < d && i < NumChunks(|data|, d)
    ensures Offset(i, d) < |data|
    ensures Chunk(data, d, i) == data[Offset(i, d) .. Offset(i, d) + Min(d, |data| - Offset(i, d))]
  {
    ChunkStartInRange(|data|, d, i);
  }

  /** Element k of the chunk list is chunk lo + k. */
  lemma {:induction false} ChunksAt(data: seq<byte>, d: nat, lo: nat, hi: nat, k: nat)
    requires 0 < d && lo <= hi <= NumChunks(|data|, d) && k < hi - lo
    ensures Chunks(data, d, lo, hi)[k] == Chunk(data, d, lo + k)
    decreases hi - lo
  {
    if k < hi - lo - 1 {
      ChunksAt(data, d, lo, hi - 1, k);
    }
  }

  lemma ConcatSnoc(ps: seq<seq<byte>>, p: seq<byte>)
    ensures Concat(ps + [p]) == Concat(ps) + p
  {
    assert (ps + [p])[..|ps|] == ps;
  }

  lemma SliceJoin(data: seq<byte>, a: nat, b: nat)
    requires a <= b <= |data|
    ensures data[..a] + data[a..b] == data[..b]
  {
  }

  /** The server's chunks, joined in order, give back the first bytes of the frame. */
  lemma {:induction false} ChunksJoin(data: seq<byte>, d: nat, hi: nat)
    requires 0 < d && hi <= NumChunks(|data|, d)
    ensures Concat(Chunks(data, d, 0, hi)) == data[..Min(Offset(hi, d), |data|)]
  {
    if hi > 0 {
      var a := Offset(hi - 1, d);
      ChunkStartInRange(|data|, d, hi - 1);
      var m := if a + d <= |data| then a + d else |data|;
      assert m == Min(Offset(hi, d), |data|);
      var prev, c := Chunks(data, d, 0, hi - 1), Chunk(data, d, hi - 1);
      assert c == data[a..m];
      ChunksJoin(data, d, hi - 1);
      assert Concat(prev) == data[..a];
      ConcatSnoc(prev, c);
      SliceJoin(data, a, m);
    }
  }

  /** All of a buffer's chunks, joined, are the buffer. */
  lemma AllChunksJoin(data: seq<byte>, d: nat)
    requires 0 < d
    ensures Concat(Chunks(data, d, 0, NumChunks(|data|, d))) == data
  {
    var n := NumChunks(|data|, d);
    ChunksJoin(data, d, n);
    if |data| > 0 {
      ChunkCountFacts(|data|, d);
    }
    assert Min(Offset(n, d), |data|) == |data|;
    assert data[..|data|] == data;
  }

  /** XOR parity of a group: byte j is the XOR of byte j of every chunk, zero-padded; length is the longest. */
  function Parity(parts: seq<seq<byte>>): (r: seq<byte>)
    ensures |r| == MaxLen(parts)
    ensures forall j :: 0 <= j < |r| ==> r[j] == XorColumn(parts, j)
  {
    seq(MaxLen(parts), j requires 0 <= j => XorColumn(parts, j))
  }

  /** First and one-past-last chunk index of group g. */
  function GroupStart(g: nat): nat { g * FEC_GROUP_SIZE }
  function GroupEnd(g: nat, nch: nat): nat { Min(GroupStart(g) + FEC_GROUP_SIZE, nch) }

  /** The header fields shared by every packet of one frame. */
  function FrameHeader(ts: int, encUs: int, fid: nat, sz: nat, nch: nat, d: nat, isKey: bool): Header
  {
    Header(Wrap(ts, 8), Wrap(encUs, 4), fid, sz, 0, nch, 0, d,
           if isKey then 1 else 0, PKT_DATA, FEC_GROUP_SIZE)
  }

  /** The base header of a sendable frame, before chunkIndex/chunkBytes/packetType are set. */
  predicate BaseFor(h0: Header, data: seq<byte>, d: nat)
  {
    Sendable(data, d) && WellFormed(h0) &&
    h0.frameSize == |data| && h0.totalChunks == NumChunks(|data|, d) && h0.dataChunkSize == d &&
    h0.fecGroupSize == FEC_GROUP_SIZE
  }

  function DataPacket(h0: Header, data: seq<byte>, d: nat, i: nat): (r: Packet)
    requires BaseFor(h0, data, d) && i < NumChunks(|data|, d)
  {
    var c := Chunk(data, d, i);
    Packet(h0.(chunkIndex := i, chunkBytes := |c|, packetType := PKT_DATA), c)
  }

  function ParityPacket(h0: Header, g: nat, parity: seq<byte>): (r: Packet)
    requires WellFormed(h0) && g < TWO16 && |parity| < TWO16
  {
    Packet(h0.(chunkIndex := g, chunkBytes := |parity|, packetType := PKT_FEC), parity)
  }

  /** Data packets for chunks lo..hi-1, in index order. */
  function DataPackets(h0: Header, data: seq<byte>, d: nat, lo: nat, hi: nat): (r: seq<Packet>)
    requires BaseFor(h0, data, d) && lo <= hi <= NumChunks(|data|, d)
    ensures |r| == hi - lo
    decreases hi - lo
  {
    if lo == hi then [] else DataPackets(h0, data, d, lo, hi - 1) + [DataPacket(h0, data, d, hi - 1)]
  }

  /** Whether group g gets a parity packet: only a full group of four with non-empty parity. */
  predicate HasParity(data: seq<byte>, d: nat, g: nat)
    requires 0 < d && g < NumGroups(NumChunks(|data|, d))
  {
    var nch := NumChunks(|data|, d);
    GroupEnd(g, nch) - GroupStart(g) == FEC_GROUP_SIZE &&
    MaxLen(Chunks(data, d, GroupStart(g), GroupEnd(g, nch))) > 0
  }

  function GroupParity(data: seq<byte>, d: nat, g: nat): (r: seq<byte>)
    requires 0 < d && g < NumGroups(NumChunks(|data|, d))
    ensures |r| <= d
  {
    var nch := NumChunks(|data|, d);
    ChunksMaxLen(data, d, GroupStart(g), GroupEnd(g, nch));
    Parity(Chunks(data, d, GroupStart(g), GroupEnd(g, nch)))
  }

  /** The packets of group g: its data chunks, then its parity chunk when it has one. */
  function GroupPackets(h0: Header, data: seq<byte>, d: nat, g: nat): (r: seq<Packet>)
    requires BaseFor(h0, data, d) && g < NumGroups(NumChunks(|data|, d))
  {
    var nch := NumChunks(|data|, d);
    SendableChunks(data, d);
    DataPackets(h0, data, d, GroupStart(g), GroupEnd(g, nch)) +
    (if HasParity(data, d, g) then [ParityPacket(h0, g, GroupParity(data, d, g))] else [])
  }

  /** Everything `Send` enqueues for the first ng groups, in order. */
  function FramePackets(h0: Header, data: seq<byte>, d: nat, ng: nat): (r: seq<Packet>)
    requires BaseFor(h0, data, d) && ng <= NumGroups(NumChunks(|data|, d))
  {
    if ng == 0 then [] else FramePackets(h0, data, d, ng - 1) + GroupPackets(h0, data, d, ng - 1)
  }

  /** Queue trimming before enqueueing: pop from the front until at most `limit` remain. */
  function Trim(q: seq<Packet>, limit: nat): (r: seq<Packet>)
    ensures |r| == Min(|q|, limit)
  {
    if |q| > limit then q[|q| - limit..] else q
  }

  /** Trimming keeps the newest packets, in order. */
  lemma TrimKeepsNewest(q: seq<Packet>, limit: nat)
    ensures Trim(q, limit) == q[|q| - Min(|q|, limit)..]
  {
  }

  // ---------------------------------------------------------------------
  // Control-channel message layouts written by the server
  // ---------------------------------------------------------------------

  /** One entry of g_monitors (include/common.hpp). */
  datatype MonitorInfo = MonitorInfo(index: int, width: int, height: int, refreshRate: int,
                                     isPrimary: bool, name: seq<byte>)

  /** The name bytes written for a monitor: at most 63. */
  function NameLen(m: MonitorInfo): (r: nat)
    ensures r <= 63 && r <= |m.name|
  {
    Min(|m.name|, 63)
  }

  /** The bytes `SendMonitorList` writes for one monitor. */
  function MonitorEntry(m: MonitorInfo): (r: seq<byte>)
    ensures |r| == 9 + NameLen(m)
  {
    [U8(m.index)] + LE(Wrap(m.width, 2), 2) + LE(Wrap(m.height, 2), 2) + LE(Wrap(m.refreshRate, 2), 2) +
    [if m.isPrimary then 1 else 0] + [NameLen(m) as byte] + m.name[..NameLen(m)]
  }

  /** The records of the first n monitors, in order. */
  function MonitorEntries(ms: seq<MonitorInfo>, n: nat): (r: seq<byte>)
    requires n <= |ms|
  {
    if n == 0 then [] else MonitorEntries(ms, n - 1) + MonitorEntry(ms[n - 1])
  }

  /** One monitor's record: index, width, height, refresh rate, primary flag, name length, name. */
  method WriteMonitorEntry(m: MonitorInfo) returns (entry: seq<byte>)
    ensures entry == MonitorEntry(m)
  {
    var nl := Min(|m.name|, 63);
    entry := [U8(m.index)] + LE(Wrap(m.width, 2), 2) + LE(Wrap(m.height, 2), 2) +
      LE(Wrap(m.refreshRate, 2), 2) + [if m.isPrimary then 1 else 0] + [nl as byte] + m.name[..nl];
  }

  /** The record loop of `SendMonitorList`: the head, then one record per monitor. */
  method WriteMonitorList(ms: seq<MonitorInfo>, current: int) returns (buf: seq<byte>)
    ensures buf == MonitorListMessage(ms, current)
  {
    buf := MonitorListHead(|ms|, current);
    ghost var head := buf;
    var i := 0;
    while i < |ms|
      invariant 0 <= i <= |ms|
      invariant buf == head + MonitorEntries(ms, i)
    {
      var entry := WriteMonitorEntry(ms[i]);
      EntriesStep(head, ms, i);
      buf := buf + entry;
      i := i + 1;
    }
  }

  /** Appending record i to the bytes so far gives the bytes through record i. */
  lemma EntriesStep(head: seq<byte>, ms: seq<MonitorInfo>, i: nat)
    requires i < |ms|
    ensures head + MonitorEntries(ms, i + 1) == head + MonitorEntries(ms, i) + MonitorEntry(ms[i])
  {
  }

  /** The whole MONITOR_LIST message: magic, count, current monitor, then the entries. */
  function MonitorListMessage(ms: seq<MonitorInfo>, current: int): seq<byte>
  {
    MonitorListHead(|ms|, current) + MonitorEntries(ms, |ms|)
  }

  /** The six bytes before the records: magic, count, current index. */
  function MonitorListHead(count: nat, current: int): (r: seq<byte>)
    ensures |r| == 6
  {
    LE(MSG_MONITOR_LIST, 4) + [U8(count), U8(current)]
  }

  /** The VERSION message: magic, u8 length, the version bytes. */
  function VersionMessage(ver: seq<byte>): (r: seq<byte>)
    ensures |r| == 5 + |ver|
  {
    LE(MSG_VERSION, 4) + [U8(|ver|)] + ver
  }

  /** The ping reply: the client's 16 bytes followed by the server's u64 timestamp. */
  function PingReply(ping: seq<byte>, nowUs: nat): (r: seq<byte>)
    ensures |r| == |ping| + 8 && r[..|ping|] == ping
  {
    ping + LE(Wrap(nowUs, 8), 8)
  }

  function HostInfoMessage(hostFps: int): seq<byte>
  {
    LE(MSG_HOST_INFO, 4) + LE(Wrap(hostFps, 2), 2)
  }

  function CodecCapsMessage(caps: byte): seq<byte>
  {
    LE(MSG_CODEC_CAPS, 4) + [caps]
  }

  function FpsAckMessage(act: int, mode: nat): seq<byte>
    requires mode < 256
  {
    LE(MSG_FPS_ACK, 4) + LE(Wrap(act, 2), 2) + [mode as byte]
  }

  function CodecAckMessage(codec: nat): seq<byte>
  {
    LE(MSG_CODEC_ACK, 4) + [U8(codec)]
  }

  function ClipboardMessage(text: seq<byte>): seq<byte>
  {
    LE(MSG_CLIPBOARD_DATA, 4) + LE(|text|, 4) + text
  }

  /** What a completed connection is greeted with, in order. */
  function Greeting(ans: AppAnswers, ver: seq<byte>): seq<seq<byte>>
  {
    [HostInfoMessage(ans.hostFps), CodecCapsMessage(ans.codecCaps),
     MonitorListMessage(ans.monitors, ans.currentMonitor), VersionMessage(ver)]
  }

  /** `IsStale`: a connection whose last ping is more than 3 s old, or that overflowed 10 times. */
  predicate Stale(conn: bool, lastPingMs: int, overflow: nat, nowUs: nat)
  {
    conn && ((lastPingMs > 0 && nowUs / 1000 - lastPingMs > 3000) || overflow >= 10)
  }

  /** A ping answered at time t keeps the connection fresh for the next three seconds. */
  lemma PingKeepsFresh(t: nat, later: nat)
    requires t <= later && later / 1000 - t / 1000 <= 3000
    ensures !Stale(true, t / 1000, 0, later)
  {
  }

  /** Application callbacks: what `cb` is asked to do, in order. */
  datatype AppEvent =
    | FpsChanged(fps: int, mode: nat)
    | CodecChangeRequested(codec: nat)
    | MonitorChangeRequested(index: nat)
    | ClipboardSet(text: seq<byte>)
    | CursorCaptureSet(on: bool)
    | AudioEnableSet(on: bool)
    | MicEnableSet(on: bool)
    | Connected
    | Disconnected

  /**
   * What the application answers during one handler call: `getHostFps`,
   * `getMonitor`, `onCodecChange`, `onMonitorChange`, `getClipboard`,
   * `getCodecCaps`, and the monitor table `g_monitors`.
   */
  datatype AppAnswers = AppAnswers(hostFps: int, currentMonitor: int, acceptCodec: bool,
                                   acceptMonitor: bool, clipboard: seq<byte>, codecCaps: byte,
                                   monitors: seq<MonitorInfo>)

  /** The server fields a control message can change. */
  datatype CtrlState = CtrlState(
    lastPing: int, overflow: nat, fpsRecv: bool, curCodec: nat, needsKey: bool,
    lastKeyReqMs: int, ctrlRecv: nat, ctrlOut: seq<seq<byte>>, events: seq<AppEvent>)

  /** `SendCtrl` on the list of sent messages: the message goes out only while the channel is open. */
  function Sent(out: seq<seq<byte>>, open: bool, msg: seq<byte>): seq<seq<byte>>
  {
    if open then out + [msg] else out
  }

  /** The u32 magic at the front of a message. */
  function Magic(m: seq<byte>): nat
    requires |m| >= 4
  {
    ReadLE(m[..4])
  }

  /**
   * `HandleCtrl`: a message shorter than 4 bytes, or one arriving before
   * all channels are open, is ignored; any other is counted and dispatched
   * on its magic.
   */
  function Ctrl(st: CtrlState, m: seq<byte>, nowUs: nat, ans: AppAnswers, open: bool, chRdy: nat): (r: CtrlState)
    ensures |m| < 4 || chRdy < NUM_CH ==> r == st
    ensures |m| >= 4 && chRdy >= NUM_CH ==> r.ctrlRecv == st.ctrlRecv + 1
    ensures Grows(st, r, m, nowUs)
  {
    if |m| < 4 || chRdy < NUM_CH then st
    else CtrlMessage(st.(ctrlRecv := st.ctrlRecv + 1), m, nowUs, ans, open)
  }

  /**
   * What no control message can do: clear `needsKey`, move `lastKeyReqMs`
   * other than to an accepted request's time, switch to a codec other than
   * a CODEC_SET's, or take back an event or a sent message; each adds at
   * most one event.
   */
  predicate Grows(st: CtrlState, r: CtrlState, m: seq<byte>, nowUs: nat)
  {
    (st.needsKey ==> r.needsKey) &&
    (r.lastKeyReqMs != st.lastKeyReqMs ==>
       r.lastKeyReqMs == nowUs / 1000 && nowUs / 1000 - st.lastKeyReqMs >= KEY_REQ_MIN_INTERVAL_MS) &&
    (r.curCodec != st.curCodec ==> |m| == 5 && r.curCodec == m[4] as nat <= 2) &&
    (r.events == st.events || (|r.events| == |st.events| + 1 && r.events[..|st.events|] == st.events)) &&
    st.ctrlOut <= r.ctrlOut
  }

  function CtrlMessage(st: CtrlState, m: seq<byte>, nowUs: nat, ans: AppAnswers, open: bool): (r: CtrlState)
    requires |m| >= 4
    ensures r.ctrlRecv == st.ctrlRecv
    ensures Grows(st, r, m, nowUs)
  {
    var magic := Magic(m);
    if magic == MSG_PING then Ping(st, m, nowUs, open)
    else if magic == MSG_FPS_SET then FpsSet(st, m, ans, open)
    else if magic == MSG_CODEC_SET then CodecSet(st, m, ans, open)
    else if magic == MSG_REQUEST_KEY then KeyRequest(st, nowUs / 1000)
    else if magic == MSG_MONITOR_SET then MonitorSet(st, m, ans, open)
    else if magic == MSG_CLIPBOARD_DATA then ClipboardData(st, m)
    else if magic == MSG_CLIPBOARD_GET then ClipboardGet(st, ans, open)
    else Switch(st, m, magic)
  }

  /** CURSOR_CAPTURE, AUDIO_ENABLE, MIC_ENABLE: a 5-byte message turns the feature on iff its byte is non-zero. */
  function Switch(st: CtrlState, m: seq<byte>, magic: nat): CtrlState
  {
    if |m| != 5 then st
    else if magic == MSG_CURSOR_CAPTURE then st.(events := st.events + [CursorCaptureSet(m[4] != 0)])
    else if magic == MSG_AUDIO_ENABLE then st.(events := st.events + [AudioEnableSet(m[4] != 0)])
    else if magic == MSG_MIC_ENABLE then st.(events := st.events + [MicEnableSet(m[4] != 0)])
    else st
  }

  /** PING: only a 16-byte ping refreshes the liveness fields and is echoed with the server time. */
  function Ping(st: CtrlState, m: seq<byte>, nowUs: nat, open: bool): CtrlState
  {
    if |m| == 16 then st.(lastPing := nowUs / 1000, overflow := 0, ctrlOut := Sent(st.ctrlOut, open, PingReply(m, nowUs)))
    else st
  }

  /** The requested rate and mode of an FPS_SET message. */
  function FpsOf(m: seq<byte>): nat
    requires |m| == 7
  {
    ReadLE(m[4..6])
  }

  /** FPS_SET: a 7-byte message with 1 <= fps <= 240 and mode <= 2; mode 1 means "use the host rate". */
  function FpsSet(st: CtrlState, m: seq<byte>, ans: AppAnswers, open: bool): CtrlState
  {
    if |m| == 7 && 1 <= FpsOf(m) <= 240 && m[6] as nat <= 2 then
      var mode := m[6] as nat;
      var act := if mode == 1 then ans.hostFps else FpsOf(m);
      st.(fpsRecv := true, events := st.events + [FpsChanged(act, mode)],
          ctrlOut := Sent(st.ctrlOut, open, FpsAckMessage(act, mode)))
    else st
  }

  /** CODEC_SET: a 5-byte message naming codec 0..2; the ack carries whatever codec is then current. */
  function CodecSet(st: CtrlState, m: seq<byte>, ans: AppAnswers, open: bool): CtrlState
  {
    if |m| == 5 && m[4] as nat <= 2 then
      var codec := if ans.acceptCodec then m[4] as nat else st.curCodec;
      st.(curCodec := codec, needsKey := st.needsKey || ans.acceptCodec,
          events := st.events + [CodecChangeRequested(m[4] as nat)],
          ctrlOut := Sent(st.ctrlOut, open, CodecAckMessage(codec)))
    else st
  }

  /** REQUEST_KEY: accepted only 350 ms or more after the last accepted request. */
  function KeyRequest(st: CtrlState, nowMs: int): CtrlState
  {
    if nowMs - st.lastKeyReqMs >= KEY_REQ_MIN_INTERVAL_MS then st.(lastKeyReqMs := nowMs, needsKey := true)
    else st
  }

  /** MONITOR_SET: on a switch the application accepts, a keyframe is due and the monitor list and host info are resent. */
  function MonitorSet(st: CtrlState, m: seq<byte>, ans: AppAnswers, open: bool): CtrlState
  {
    if |m| != 5 then st
    else
      var asked := st.events + [MonitorChangeRequested(m[4] as nat)];
      if ans.acceptMonitor then
        var out := Sent(st.ctrlOut, open, MonitorListMessage(ans.monitors, ans.currentMonitor));
        st.(events := asked, needsKey := true, ctrlOut := Sent(out, open, HostInfoMessage(ans.hostFps)))
      else st.(events := asked)
  }

  /** The declared text length of a CLIPBOARD_DATA message. */
  function ClipLen(m: seq<byte>): nat
    requires |m| >= 8
  {
    ReadLE(m[4..8])
  }

  /** CLIPBOARD_DATA: the declared text must be non-empty, present in full and at most 1 MiB. */
  function ClipboardData(st: CtrlState, m: seq<byte>): CtrlState
  {
    if |m| >= 8 && 0 < ClipLen(m) <= MAX_CLIPBOARD && |m| >= 8 + ClipLen(m) then
      st.(events := st.events + [ClipboardSet(m[8 .. 8 + ClipLen(m)])])
    else st
  }

  /** CLIPBOARD_GET: the host clipboard is sent when it is non-empty and at most 1 MiB. */
  function ClipboardGet(st: CtrlState, ans: AppAnswers, open: bool): CtrlState
  {
    if 0 < |ans.clipboard| <= MAX_CLIPBOARD then st.(ctrlOut := Sent(st.ctrlOut, open, ClipboardMessage(ans.clipboard)))
    else st
  }

  class Server {
    /** DATA_CHUNK, 1369 under the 31-byte header. */
    const dataChunk: nat
    var conn: bool
    var chRdy: nat
    /** Whether the control data channel is open (what `SendCtrl` checks). */
    var ctrlOpen: bool
    /** The data channels whose `onOpen` fired and whose `onClosed` has not. */
    var openCh: set<Channel>
    var overflow: nat
    var lastPing: int
    var frmId: nat
    var needsKey: bool
    var fpsRecv: bool
    var curCodec: nat
    var lastKeyReqMs: int
    var ctrlRecv: nat
    var videoSent: nat
    /** Video packets waiting to be drained to the channel, oldest first. */
    var vidQ: seq<Packet>
    /** Video packets the video channel took, in order. */
    var vidOut: seq<Packet>
    /** Video sends the channel refused with an exception. */
    var videoErr: nat
    /** Control messages handed to the control channel, in order. */
    var ctrlOut: seq<seq<byte>>
    /** Callbacks made into the application, in order. */
    var events: seq<AppEvent>

    predicate Valid()
      reads this`frmId, this`curCodec, this`ctrlOpen, this`openCh, this`chRdy
    {
      0 < dataChunk < TWO16 && frmId < TWO32 && curCodec <= 2 &&
      (ctrlOpen <==> Control in openCh) && chRdy <= OpenCount(openCh)
    }

    /** The fields a control message can change. */
    function Fields(): CtrlState
      reads this
    {
      CtrlState(lastPing, overflow, fpsRecv, curCodec, needsKey, lastKeyReqMs, ctrlRecv, ctrlOut, events)
    }

    constructor (d: nat)
      requires 0 < d < TWO16
      ensures Valid() && dataChunk == d
      ensures !conn && chRdy == 0 && !ctrlOpen && openCh == {} && overflow == 0 && lastPing == 0 && frmId == 0
      ensures needsKey && curCodec == 0 && lastKeyReqMs == 0 && vidQ == [] && ctrlOut == [] && events == []
      ensures vidOut == [] && videoErr == 0
    {
      dataChunk := d;
      conn := false;
      chRdy := 0;
      ctrlOpen := false;
      openCh := {};
      overflow := 0;
      lastPing := 0;
      frmId := 0;
      needsKey := true;
      fpsRecv := false;
      curCodec := 0;
      lastKeyReqMs := 0;
      ctrlRecv := 0;
      videoSent := 0;
      vidQ := [];
      vidOut := [];
      videoErr := 0;
      ctrlOut := [];
      events := [];
    }

    predicate IsStale(nowUs: nat)
      reads this
    {
      Stale(conn, lastPing, overflow, nowUs)
    }

    /** Close every channel, tear down the connection state and drop every queued packet. */
    method Reset()
      modifies this`conn, this`fpsRecv, this`chRdy, this`ctrlOpen, this`openCh, this`overflow, this`lastPing, this`vidQ
      ensures !conn && !fpsRecv && chRdy == 0 && !ctrlOpen && openCh == {} && overflow == 0 && lastPing == 0
      ensures vidQ == []
    {
      conn := false;
      fpsRecv := false;
      chRdy := 0;
      ctrlOpen := false;
      openCh := {};
      overflow := 0;
      lastPing := 0;
      vidQ := [];
    }

    method SendCtrl(msg: seq<byte>)
      modifies this`ctrlOut
      ensures ctrlOut == Sent(old(ctrlOut), ctrlOpen, msg)
    {
      if ctrlOpen {
        ctrlOut := ctrlOut + [msg];
      }
    }

    /**
     * Channel `ch` opened; the fifth completes the connection and the greeting
     * messages go out on the control channel, which is then open. The
     * transport reports each channel's opening once until it closes.
     */
    method OnChannelOpen(ch: Channel, nowUs: nat, ans: AppAnswers, ver: seq<byte>)
      requires Valid() && ch !in openCh
      modifies this`chRdy, this`ctrlOpen, this`openCh, this`conn, this`needsKey, this`lastPing, this`overflow
      modifies this`ctrlOut, this`events
      ensures Valid() && chRdy == old(chRdy) + 1 && openCh == old(openCh) + {ch}
      ensures ctrlOpen == (old(ctrlOpen) || ch == Control)
      ensures chRdy != NUM_CH ==>
        (conn == old(conn) && needsKey == old(needsKey) && lastPing == old(lastPing) &&
         overflow == old(overflow) && ctrlOut == old(ctrlOut) && events == old(events))
      ensures chRdy == NUM_CH ==>
        (conn && needsKey && lastPing == nowUs / 1000 && overflow == 0 &&
         ctrlOut == old(ctrlOut) + Greeting(ans, ver) &&
         events == old(events) + [Connected])
    {
      OpenCountAdd(openCh, ch);
      chRdy, openCh, ctrlOpen := chRdy + 1, openCh + {ch}, ctrlOpen || ch == Control;
      if chRdy == NUM_CH {
        FullIncludesControl(openCh);
        Connect(nowUs, ans, ver);
      }
    }

    /** The fifth channel opening: the connection is up, liveness restarts and the greeting goes out. */
    method Connect(nowUs: nat, ans: AppAnswers, ver: seq<byte>)
      requires ctrlOpen
      modifies this`conn, this`needsKey, this`lastPing, this`overflow, this`ctrlOut, this`events
      ensures conn && needsKey && lastPing == nowUs / 1000 && overflow == 0
      ensures ctrlOut == old(ctrlOut) + Greeting(ans, ver) && events == old(events) + [Connected]
    {
      conn, needsKey, lastPing, overflow := true, true, nowUs / 1000, 0;
      SendGreeting(ans, ver);
      events := events + [Connected];
    }

    /** Channel `ch` closed: the connection is down until all channels reopen. */
    method OnChannelClose(ch: Channel)
      requires Valid()
      modifies this`chRdy, this`ctrlOpen, this`openCh, this`conn, this`fpsRecv, this`overflow, this`events
      ensures Valid() && openCh == old(openCh) - {ch} && ctrlOpen == (old(ctrlOpen) && ch != Control)
      ensures chRdy == 0 && !conn && !fpsRecv && overflow == 0 && events == old(events) + [Disconnected]
    {
      chRdy, openCh, ctrlOpen := 0, openCh - {ch}, ctrlOpen && ch != Control;
      conn, fpsRecv, overflow := false, false, 0;
      events := events + [Disconnected];
    }

    /** Host info, codec capabilities, monitor list and version, in that order. */
    method SendGreeting(ans: AppAnswers, ver: seq<byte>)
      modifies this`ctrlOut
      ensures ctrlOut == old(ctrlOut) + (if ctrlOpen then Greeting(ans, ver) else [])
    {
      SendHostInfo(ans);
      SendCodecCaps(ans);
      SendMonitorList(ans);
      SendVersion(ver);
    }

    method SendHostInfo(ans: AppAnswers)
      modifies this`ctrlOut
      ensures ctrlOut == Sent(old(ctrlOut), ctrlOpen, HostInfoMessage(ans.hostFps))
    {
      SendCtrl(HostInfoMessage(ans.hostFps));
    }

    method SendCodecCaps(ans: AppAnswers)
      modifies this`ctrlOut
      ensures ctrlOut == Sent(old(ctrlOut), ctrlOpen, CodecCapsMessage(ans.codecCaps))
    {
      SendCtrl(CodecCapsMessage(ans.codecCaps));
    }

    method SendVersion(ver: seq<byte>)
      modifies this`ctrlOut
      ensures ctrlOut == Sent(old(ctrlOut), ctrlOpen, VersionMessage(ver))
    {
      var buf := LE(MSG_VERSION, 4) + [U8(|ver|)] + ver;
      SendCtrl(buf);
    }

    /** `SendMonitorList`: the header, then each monitor's entry written at the moving offset. */
    method SendMonitorList(ans: AppAnswers)
      modifies this`ctrlOut
      ensures ctrlOut == Sent(old(ctrlOut), ctrlOpen, MonitorListMessage(ans.monitors, ans.currentMonitor))
    {
      var buf := WriteMonitorList(ans.monitors, ans.currentMonitor);
      SendCtrl(buf);
    }

    /** `HandleCtrl`, one message at a time. */
    method HandleCtrl(m: seq<byte>, nowUs: nat, ans: AppAnswers)
      requires Valid()
      modifies this`lastPing, this`overflow, this`fpsRecv, this`curCodec, this`needsKey, this`lastKeyReqMs,
        this`ctrlRecv, this`ctrlOut, this`events
      ensures Valid()
      ensures Fields() == Ctrl(old(Fields()), m, nowUs, ans, ctrlOpen, chRdy)
    {
      if |m| < 4 || chRdy < NUM_CH {
        return;
      }
      ctrlRecv := ctrlRecv + 1;
      assert Fields() == old(Fields()).(ctrlRecv := old(ctrlRecv) + 1);
      Dispatch(m, nowUs, ans);
    }

    /** The magic-number switch of `HandleCtrl`. */
    method Dispatch(m: seq<byte>, nowUs: nat, ans: AppAnswers)
      requires |m| >= 4 && Valid()
      modifies this`lastPing, this`overflow, this`fpsRecv, this`curCodec, this`needsKey, this`lastKeyReqMs,
        this`ctrlOut, this`events
      ensures Valid()
      ensures Fields() == CtrlMessage(old(Fields()), m, nowUs, ans, ctrlOpen)
    {
      var magic := ReadLE(m[..4]);
      if magic == MSG_PING {
        OnPing(m, nowUs);
      } else if magic == MSG_FPS_SET {
        OnFpsSet(m, ans);
      } else if magic == MSG_CODEC_SET {
        OnCodecSet(m, ans);
      } else if magic == MSG_REQUEST_KEY {
        OnKeyRequest(nowUs / 1000);
      } else if magic == MSG_MONITOR_SET {
        OnMonitorSet(m, ans);
      } else if magic == MSG_CLIPBOARD_DATA {
        OnClipboardData(m);
      } else if magic == MSG_CLIPBOARD_GET {
        OnClipboardGet(ans);
      } else {
        OnSwitch(m, magic);
      }
    }

    method OnPing(m: seq<byte>, nowUs: nat)
      modifies this`lastPing, this`overflow, this`ctrlOut
      ensures Fields() == Ping(old(Fields()), m, nowUs, ctrlOpen)
    {
      if |m| == 16 {
        lastPing := nowUs / 1000;
        overflow := 0;
        SendCtrl(m + LE(Wrap(nowUs, 8), 8));
      }
    }

    method OnKeyRequest(nowMs: int)
      modifies this`lastKeyReqMs, this`needsKey
      ensures Fields() == KeyRequest(old(Fields()), nowMs)
    {
      if nowMs - lastKeyReqMs >= KEY_REQ_MIN_INTERVAL_MS {
        lastKeyReqMs := nowMs;
        needsKey := true;
      }
    }

    method OnClipboardData(m: seq<byte>)
      modifies this`events
      ensures Fields() == ClipboardData(old(Fields()), m)
    {
      if |m| >= 8 {
        var len := ReadLE(m[4..8]);
        if len > 0 && |m| >= 8 + len && len <= MAX_CLIPBOARD {
          events := events + [ClipboardSet(m[8 .. 8 + len])];
        }
      }
    }

    method OnClipboardGet(ans: AppAnswers)
      modifies this`ctrlOut
      ensures Fields() == ClipboardGet(old(Fields()), ans, ctrlOpen)
    {
      var text := ans.clipboard;
      if |text| > 0 && |text| <= MAX_CLIPBOARD {
        SendCtrl(LE(MSG_CLIPBOARD_DATA, 4) + LE(|text|, 4) + text);
      }
    }

    method OnSwitch(m: seq<byte>, magic: nat)
      modifies this`events
      ensures Fields() == Switch(old(Fields()), m, magic)
    {
      if |m| == 5 {
        if magic == MSG_CURSOR_CAPTURE {
          events := events + [CursorCaptureSet(m[4] != 0)];
        } else if magic == MSG_AUDIO_ENABLE {
          events := events + [AudioEnableSet(m[4] != 0)];
        } else if magic == MSG_MIC_ENABLE {
          events := events + [MicEnableSet(m[4] != 0)];
        }
      }
    }

    method OnFpsSet(m: seq<byte>, ans: AppAnswers)
      modifies this`fpsRecv, this`events, this`ctrlOut
      ensures Fields() == FpsSet(old(Fields()), m, ans, ctrlOpen)
    {
      if |m| == 7 {
        var fps := ReadLE(m[4..6]);
        var mode := m[6] as nat;
        if 1 <= fps <= 240 && mode <= 2 {
          var act := if mode == 1 then ans.hostFps else fps;
          fpsRecv := true;
          events := events + [FpsChanged(act, mode)];
          SendCtrl(LE(MSG_FPS_ACK, 4) + LE(Wrap(act, 2), 2) + [mode as byte]);
        }
      }
    }

    method OnCodecSet(m: seq<byte>, ans: AppAnswers)
      requires Valid()
      modifies this`curCodec, this`needsKey, this`events, this`ctrlOut
      ensures Valid()
      ensures Fields() == CodecSet(old(Fields()), m, ans, ctrlOpen)
    {
      if |m| == 5 && m[4] as nat <= 2 {
        var nc := m[4] as nat;
        events := events + [CodecChangeRequested(nc)];
        if ans.acceptCodec {
          curCodec := nc;
          needsKey := true;
        }
        SendCtrl(LE(MSG_CODEC_ACK, 4) + [U8(curCodec)]);
      }
    }

    method OnMonitorSet(m: seq<byte>, ans: AppAnswers)
      modifies this`needsKey, this`events, this`ctrlOut
      ensures Fields() == MonitorSet(old(Fields()), m, ans, ctrlOpen)
    {
      if |m| == 5 {
        events := events + [MonitorChangeRequested(m[4] as nat)];
        if ans.acceptMonitor {
          needsKey := true;
          SendMonitorList(ans);
          SendHostInfo(ans);
        }
      }
    }

    /**
     * Packetise one encoded frame onto the video queue, then drain the queue
     * to the video channel, which behaves as `link` says. `streaming` is the
     * answer of `IsStreaming()`, whose definition is not part of this model.
     */
    method Send(data: seq<byte>, ts: int, encUs: int, isKey: bool, streaming: bool, nowUs: nat, link: Link)
      returns (ok: bool)
      requires Valid() && (link.open <==> Video in openCh)
      modifies this`conn, this`fpsRecv, this`chRdy, this`ctrlOpen, this`openCh, this`overflow, this`lastPing
      modifies this`vidQ, this`vidOut, this`videoErr, this`events, this`frmId, this`needsKey, this`videoSent
      ensures Valid()
      ensures !streaming ==> !ok && unchanged(this)
      ensures streaming && old(IsStale(nowUs)) ==>
        !ok && !conn && chRdy == 0 && vidQ == [] && events == old(events) + [Disconnected] &&
        frmId == old(frmId) && needsKey == old(needsKey) && vidOut == old(vidOut)
      ensures streaming && !old(IsStale(nowUs)) && !Sendable(data, dataChunk) ==> !ok && unchanged(this)
      ensures streaming && !old(IsStale(nowUs)) && Sendable(data, dataChunk) ==>
        var a := Accept(old(VideoFields()), data, ts, encUs, isKey, dataChunk);
        var d := DrainOf(a.vidQ, link);
        ok && frmId == a.frmId && videoSent == a.videoSent && vidQ == d.rest &&
        needsKey == (a.needsKey || d.errors > 0) && vidOut == old(vidOut) + d.delivered &&
        videoErr == old(videoErr) + d.errors && overflow == old(overflow) + d.errors &&
        conn == old(conn) && chRdy == old(chRdy) && lastPing == old(lastPing) && events == old(events)
    {
      if !streaming {
        return false;
      }
      if IsStale(nowUs) {
        Reset();
        events := events + [Disconnected];
        return false;
      }
      if |data| == 0 || |data| > dataChunk * 65535 {
        return false;
      }
      Deliver(data, ts, encUs, isKey, link);
      ok := true;
    }

    /** The accepting half of `Send`: queue the frame's packets, then drain the queue. */
    method Deliver(data: seq<byte>, ts: int, encUs: int, isKey: bool, link: Link)
      requires Valid() && Sendable(data, dataChunk) && (link.open <==> Video in openCh)
      modifies this`frmId, this`needsKey, this`vidQ, this`videoSent, this`vidOut, this`videoErr, this`overflow
      ensures Valid()
      ensures var a := Accept(old(VideoFields()), data, ts, encUs, isKey, dataChunk);
        var d := DrainOf(a.vidQ, link);
        frmId == a.frmId && videoSent == a.videoSent && vidQ == d.rest &&
        needsKey == (a.needsKey || d.errors > 0) && vidOut == old(vidOut) + d.delivered &&
        videoErr == old(videoErr) + d.errors && overflow == old(overflow) + d.errors
    {
      Enqueue(data, ts, encUs, isKey);
      DrainVideo(link);
    }

    /**
     * Hand queued packets to the video channel, oldest first, while its
     * buffered amount allows. A send that throws still consumes its packet;
     * it counts as an overflow and forces a keyframe. The link is open
     * exactly while the video channel is among the open channels.
     */
    method DrainVideo(link: Link)
      requires link.open <==> Video in openCh
      modifies this`vidQ, this`vidOut, this`videoErr, this`overflow, this`needsKey
      ensures var d := DrainOf(old(vidQ), link);
        vidQ == d.rest && vidOut == old(vidOut) + d.delivered && videoErr == old(videoErr) + d.errors &&
        overflow == old(overflow) + d.errors && needsKey == (old(needsKey) || d.errors > 0)
    {
      if !link.open {
        return;
      }
      var d := DrainQueue(vidQ, link.room, link.fails);
      vidQ, vidOut := d.rest, vidOut + d.delivered;
      videoErr, overflow := videoErr + d.errors, overflow + d.errors;
      needsKey := needsKey || d.errors > 0;
    }

    /** The fields the video path of `Send` changes. */
    function VideoFields(): VideoState
      reads this
    {
      VideoState(frmId, needsKey, vidQ, videoSent)
    }

    method Enqueue(data: seq<byte>, ts: int, encUs: int, isKey: bool)
      requires Valid() && Sendable(data, dataChunk)
      modifies this`frmId, this`needsKey, this`vidQ, this`videoSent
      ensures Valid()
      ensures VideoFields() == Accept(old(VideoFields()), data, ts, encUs, isKey, dataChunk)
    {
      var v := AcceptFrame(VideoFields(), data, ts, encUs, isKey, dataChunk);
      frmId, needsKey, vidQ, videoSent := v.frmId, v.needsKey, v.vidQ, v.videoSent;
    }
  }

  /**
   * What the video channel does during one drain: whether it is open, how
   * many sends it takes before its buffered amount passes `VID_BUF`, and
   * which sends, counted from 0, throw.
   */
  datatype Link = Link(open: bool, room: nat, fails: seq<bool>)

  /** A drain's outcome: the packets left queued, those the channel took, and the sends that threw. */
  datatype Drained = Drained(rest: seq<Packet>, delivered: seq<Packet>, errors: nat)

  /** How many packets of a queue of `n` a drain whose `i`-th send is next gets to. */
  function Reached(n: nat, room: nat, i: nat): nat
  {
    if i >= room then 0 else Min(n, room - i)
  }

  /**
   * Draining `q` from send number `i` on: every packet reached is either
   * taken or counted as an error, in queue order; the rest stay queued.
   */
  function Drain(q: seq<Packet>, room: nat, fails: seq<bool>, i: nat): (r: Drained)
    ensures r.rest == q[Reached(|q|, room, i)..]
    ensures |r.delivered| + r.errors == Reached(|q|, room, i)
    decreases |q|
  {
    if |q| == 0 || i >= room then Drained(q, [], 0)
    else
      var r := Drain(q[1..], room, fails, i + 1);
      assert q[1..][Reached(|q| - 1, room, i + 1)..] == q[Reached(|q|, room, i)..];
      if i < |fails| && fails[i] then r.(errors := r.errors + 1)
      else r.(delivered := [q[0]] + r.delivered)
  }

  /** The send loop of `DrainVideo` on the queue alone. */
  method DrainQueue(q0: seq<Packet>, room: nat, fails: seq<bool>) returns (d: Drained)
    ensures d == Drain(q0, room, fails, 0)
  {
    ghost var d0 := Drain(q0, room, fails, 0);
    var q, out, errs, i := q0, [], 0, 0;
    while |q| > 0 && i < room
      invariant d0.rest == Drain(q, room, fails, i).rest
      invariant d0.delivered == out + Drain(q, room, fails, i).delivered
      invariant d0.errors == errs + Drain(q, room, fails, i).errors
      decreases |q|
    {
      ghost var now := Drain(q, room, fails, i);
      ghost var next := Drain(q[1..], room, fails, i + 1);
      DrainStep(q, room, fails, i);
      if i < |fails| && fails[i] {
        errs := errs + 1;
      } else {
        assert now.delivered == [q[0]] + next.delivered;
        assert out + now.delivered == (out + [q[0]]) + next.delivered;
        out := out + [q[0]];
      }
      q := q[1..];
      i := i + 1;
    }
    assert Drain(q, room, fails, i) == Drained(q, [], 0);
    assert out + [] == out;
    d := Drained(q, out, errs);
  }

  /** One send of a drain: the head packet is taken or counted as an error. */
  lemma DrainStep(q: seq<Packet>, room: nat, fails: seq<bool>, i: nat)
    requires |q| > 0 && i < room
    ensures var r := Drain(q[1..], room, fails, i + 1);
      Drain(q, room, fails, i) ==
        if i < |fails| && fails[i] then r.(errors := r.errors + 1) else r.(delivered := [q[0]] + r.delivered)
  {
  }

  /** `DrainVideo` on queue `q`: nothing happens while the channel is closed. */
  function DrainOf(q: seq<Packet>, link: Link): Drained
  {
    if link.open then Drain(q, link.room, link.fails, 0) else Drained(q, [], 0)
  }

  /** A channel with room for the whole queue and no failing send takes every packet, in order. */
  lemma {:induction false} DrainDeliversAll(q: seq<Packet>, room: nat, i: nat)
    requires i + |q| <= room
    ensures Drain(q, room, [], i) == Drained([], q, 0)
  {
    if |q| > 0 {
      DrainDeliversAll(q[1..], room, i + 1);
      assert [q[0]] + q[1..] == q;
    }
  }

  /** Ten sends that throw in one drain make a live connection stale, so the next `Send` resets it. */
  lemma FailuresMakeStale(q: seq<Packet>, link: Link, lastPingMs: int, overflow: nat, nowUs: nat)
    requires DrainOf(q, link).errors >= 10
    ensures Stale(true, lastPingMs, overflow + DrainOf(q, link).errors, nowUs)
  {
  }

  /** The part of the server's state that `Send` changes when it accepts a frame. */
  datatype VideoState = VideoState(frmId: nat, needsKey: bool, vidQ: seq<Packet>, videoSent: nat)

  /** The header every packet of an accepted frame starts from is well formed. */
  lemma FrameHeaderBase(ts: int, encUs: int, fid: nat, data: seq<byte>, d: nat, isKey: bool)
    requires Sendable(data, d) && fid < TWO32
    ensures BaseFor(FrameHeader(ts, encUs, fid, |data|, NumChunks(|data|, d), d, isKey), data, d)
  {
    Pow256Values();
    SendableChunks(data, d);
  }

  /**
   * `Send` accepting a frame: it takes the next frame id, trims the queue to
   * three frames' worth (a loss forces a keyframe), then appends the frame's
   * packets group by group.
   */
  function Accept(v: VideoState, data: seq<byte>, ts: int, encUs: int, isKey: bool, d: nat): (r: VideoState)
    requires Sendable(data, d) && v.frmId < TWO32
    ensures r.frmId < TWO32 && r.frmId == (v.frmId + 1) % TWO32 && r.videoSent == v.videoSent + 1
    ensures r.needsKey <==> v.needsKey || |v.vidQ| > QueueLimit(NumChunks(|data|, d))
  {
    var nch := NumChunks(|data|, d);
    var h0 := FrameHeader(ts, encUs, v.frmId, |data|, nch, d, isKey);
    FrameHeaderBase(ts, encUs, v.frmId, data, d, isKey);
    VideoState((v.frmId + 1) % TWO32, v.needsKey || |v.vidQ| > QueueLimit(nch),
               Trim(v.vidQ, QueueLimit(nch)) + FramePackets(h0, data, d, NumGroups(nch)), v.videoSent + 1)
  }

  /** The body of `Enqueue` on the video fields alone. */
  method AcceptFrame(v: VideoState, data: seq<byte>, ts: int, encUs: int, isKey: bool, d: nat)
    returns (r: VideoState)
    requires Sendable(data, d) && v.frmId < TWO32
    ensures r == Accept(v, data, ts, encUs, isKey, d)
  {
    var nch := CeilDiv(|data|, d);
    var h := FrameHeader(ts, encUs, v.frmId, |data|, nch, d, isKey);
    FrameHeaderBase(ts, encUs, v.frmId, data, d, isKey);
    // Trim the queue from the front; any loss forces a keyframe.
    var q, dropped := TrimFront(v.vidQ, QueueLimit(nch));
    var pkts := Packetise(h, data, d);
    r := VideoState((v.frmId + 1) % TWO32, v.needsKey || dropped, q + pkts, v.videoSent + 1);
  }

  /** Packets kept queued when a frame of nch chunks is added: three frames' worth. */
  function QueueLimit(nch: nat): nat
  {
    (nch + nch / FEC_GROUP_SIZE) * 3
  }

  /** `(sz + d - 1) / d`, the chunk count as `Send` computes it. */
  method CeilDiv(sz: nat, d: nat) returns (nch: nat)
    requires 0 < d && 0 < sz
    ensures nch == NumChunks(sz, d)
  {
    nch := (sz + d - 1) / d;
    NumChunksIsCeil(sz, d);
  }

  /** The queue-trimming loop of `Send`: pop the oldest packet while more than `limit` remain. */
  method TrimFront(vidQ: seq<Packet>, limit: nat) returns (q: seq<Packet>, dropped: bool)
    ensures q == Trim(vidQ, limit)
    ensures dropped <==> |vidQ| > limit
  {
    q := vidQ;
    dropped := false;
    while |q| > limit
      invariant |q| <= |vidQ| && q == vidQ[|vidQ| - |q|..]
      invariant |q| < |vidQ| ==> |q| >= limit
      invariant dropped == (|q| < |vidQ|)
    {
      q := q[1..];
      dropped := true;
    }
  }

  /** The chunk/parity loops of `Send`: data packets of each group in index order, then its parity. */
  /** Group g+1's packets follow those of the first g groups. */
  lemma FramePacketsStep(h0: Header, data: seq<byte>, d: nat, g: nat)
    requires BaseFor(h0, data, d) && g < NumGroups(NumChunks(|data|, d))
    ensures GroupEnd(g, NumChunks(|data|, d)) <= NumChunks(|data|, d)
    ensures FramePackets(h0, data, d, g + 1) ==
      FramePackets(h0, data, d, g) + GroupPackets(h0, data, d, g)
  {
  }

  method Packetise(h0: Header, data: seq<byte>, d: nat) returns (pkts: seq<Packet>)
    requires BaseFor(h0, data, d)
    ensures pkts == FramePackets(h0, data, d, NumGroups(NumChunks(|data|, d)))
  {
    var nch := NumChunks(|data|, d);
    pkts := [];
    var g := 0;
    while g * FEC_GROUP_SIZE < nch
      invariant 0 <= g <= NumGroups(nch)
      invariant pkts == FramePackets(h0, data, d, g)
    {
      pkts, g := GroupStep(h0, data, d, g, pkts);
    }
    GroupBound(nch, g);
  }

  /** One pass of the group loop, stated as the loop's invariant carried from g to g + 1. */
  method GroupStep(h0: Header, data: seq<byte>, d: nat, g: nat, pkts: seq<Packet>)
    returns (pkts': seq<Packet>, g': nat)
    requires BaseFor(h0, data, d) && g * FEC_GROUP_SIZE < NumChunks(|data|, d)
    requires pkts == FramePackets(h0, data, d, g)
    ensures g' == g + 1 && g' <= NumGroups(NumChunks(|data|, d))
    ensures pkts' == FramePackets(h0, data, d, g')
  {
    GroupBound(NumChunks(|data|, d), g);
    var out := EmitGroup(h0, data, d, g);
    FramePacketsStep(h0, data, d, g);
    pkts' := pkts + out;
    g' := g + 1;
  }

  /** One pass of the group loop: the group's data packets, then its parity packet when the group is full. */
  method EmitGroup(h0: Header, data: seq<byte>, d: nat, g: nat) returns (out: seq<Packet>)
    requires BaseFor(h0, data, d) && g < NumGroups(NumChunks(|data|, d))
    ensures out == GroupPackets(h0, data, d, g)
  {
    var nch := NumChunks(|data|, d);
    var start := g * FEC_GROUP_SIZE;
    var end := Min(start + FEC_GROUP_SIZE, nch);
    GroupBound(nch, g);
    assert start == GroupStart(g) && end == GroupEnd(g, nch);
    var dps, parity := GroupData(h0, data, d, start, end);
    GroupPacketsOf(h0, data, d, g, dps, parity);
    out := dps;
    if end - start == FEC_GROUP_SIZE && |parity| > 0 {
      out := out + [ParityPacket(h0, g, parity)];
    }
  }

  /** The packets of group g are its data packets followed by its parity packet, if any. */
  lemma GroupPacketsOf(h0: Header, data: seq<byte>, d: nat, g: nat, dps: seq<Packet>, parity: seq<byte>)
    requires BaseFor(h0, data, d) && g < NumGroups(NumChunks(|data|, d))
    requires GroupEnd(g, NumChunks(|data|, d)) <= NumChunks(|data|, d)
    requires dps == DataPackets(h0, data, d, GroupStart(g), GroupEnd(g, NumChunks(|data|, d)))
    requires parity == Parity(Chunks(data, d, GroupStart(g), GroupEnd(g, NumChunks(|data|, d))))
    ensures g < TWO16 && |parity| < TWO16
    ensures GroupPackets(h0, data, d, g) ==
      dps + (if GroupEnd(g, NumChunks(|data|, d)) - GroupStart(g) == FEC_GROUP_SIZE && |parity| > 0
             then [ParityPacket(h0, g, parity)] else [])
  {
    SendableChunks(data, d);
    assert |parity| <= d by {
      ChunksMaxLen(data, d, GroupStart(g), GroupEnd(g, NumChunks(|data|, d)));
    }
  }

  method GroupData(h0: Header, data: seq<byte>, d: nat, start: nat, end: nat)
    returns (dps: seq<Packet>, parity: seq<byte>)
    requires BaseFor(h0, data, d) && start <= end <= NumChunks(|data|, d)
    ensures dps == DataPackets(h0, data, d, start, end)
    ensures parity == Parity(Chunks(data, d, start, end))
  {
    var buf := NewParityBuffer(d);
    var parityLen := 0;
    dps := [];
    var i := start;
    ghost var cs: seq<seq<byte>> := [];
    EmptyGroup(h0, data, d, start);
    while i < end
      invariant start <= i <= end
      invariant dps == DataPackets(h0, data, d, start, i)
      invariant cs == Chunks(data, d, start, i)
      invariant parityLen == MaxLen(cs) && parityLen <= d
      invariant buf.Length == d && buf[..] == PaddedParity(cs, d)
    {
      dps, parityLen, cs, i := ChunkStep(h0, data, d, start, i, buf, dps, parityLen, cs);
    }
    parity := buf[..parityLen];
    PaddedParityPrefix(buf[..], cs, d, parityLen);
  }

  /** The zeroed parity buffer the chunk loop starts from. */
  method NewParityBuffer(d: nat) returns (buf: array<byte>)
    ensures fresh(buf) && buf.Length == d && buf[..] == PaddedParity([], d)
  {
    buf := new byte[d](_ => 0);
    assert buf[..] == PaddedParity([], d);
  }

  /** Before the chunk loop, no packets, no chunks and no parity bytes. */
  lemma EmptyGroup(h0: Header, data: seq<byte>, d: nat, lo: nat)
    requires BaseFor(h0, data, d) && lo <= NumChunks(|data|, d)
    ensures DataPackets(h0, data, d, lo, lo) == [] && Chunks(data, d, lo, lo) == [] && MaxLen([]) == 0
  {
  }

  /** One pass of the chunk loop, stated as the loop's invariant carried from i to i + 1. */
  method ChunkStep(h0: Header, data: seq<byte>, d: nat, lo: nat, i: nat, buf: array<byte>,
                   dps: seq<Packet>, parityLen: nat, ghost cs: seq<seq<byte>>)
    returns (dps': seq<Packet>, parityLen': nat, ghost cs': seq<seq<byte>>, i': nat)
    requires BaseFor(h0, data, d) && lo <= i < NumChunks(|data|, d)
    requires dps == DataPackets(h0, data, d, lo, i) && cs == Chunks(data, d, lo, i)
    requires parityLen == MaxLen(cs) && parityLen <= d
    requires buf.Length == d && buf[..] == PaddedParity(cs, d)
    modifies buf
    ensures i' == i + 1
    ensures dps' == DataPackets(h0, data, d, lo, i') && cs' == Chunks(data, d, lo, i')
    ensures parityLen' == MaxLen(cs') && parityLen' <= d
    ensures buf[..] == PaddedParity(cs', d)
  {
    var pkt, len := EmitChunk(h0, data, d, i, buf, cs);
    StepLists(h0, data, d, lo, i, dps, cs);
    dps' := dps + [pkt];
    parityLen' := Max(parityLen, len);
    cs' := cs + [Chunk(data, d, i)];
    i' := i + 1;
  }

  /** The parity buffer of `Send`: d bytes, byte k the column XOR of the chunks so far. */
  function PaddedParity(cs: seq<seq<byte>>, d: nat): (r: seq<byte>)
    ensures |r| == d
  {
    seq(d, k requires 0 <= k => XorColumn(cs, k))
  }

  /** The parity packet carries the first MaxLen bytes of the buffer. */
  lemma PaddedParityPrefix(b: seq<byte>, cs: seq<seq<byte>>, d: nat, n: nat)
    requires b == PaddedParity(cs, d) && n == MaxLen(cs) <= d
    ensures b[..n] == Parity(cs)
  {
  }

  /** One more chunk extends both the data packet list and the chunk list by its own entry. */
  lemma StepLists(h0: Header, data: seq<byte>, d: nat, lo: nat, i: nat, dps: seq<Packet>, cs: seq<seq<byte>>)
    requires BaseFor(h0, data, d) && lo <= i < NumChunks(|data|, d)
    requires dps == DataPackets(h0, data, d, lo, i) && cs == Chunks(data, d, lo, i)
    ensures dps + [DataPacket(h0, data, d, i)] == DataPackets(h0, data, d, lo, i + 1)
    ensures cs + [Chunk(data, d, i)] == Chunks(data, d, lo, i + 1)
    ensures MaxLen(cs + [Chunk(data, d, i)]) == Max(MaxLen(cs), |Chunk(data, d, i)|) <= d
  {
    MaxLenSnoc(cs, Chunk(data, d, i));
    ChunksMaxLen(data, d, lo, i);
  }

  /**
   * One pass of the chunk loop: build the data packet of chunk i and XOR
   * the chunk into the parity buffer.
   */
  method EmitChunk(h0: Header, data: seq<byte>, d: nat, i: nat, buf: array<byte>, ghost cs: seq<seq<byte>>)
    returns (pkt: Packet, len: nat)
    requires BaseFor(h0, data, d) && i < NumChunks(|data|, d)
    requires buf.Length == d && buf[..] == PaddedParity(cs, d)
    modifies buf
    ensures pkt == DataPacket(h0, data, d, i) && len == |Chunk(data, d, i)|
    ensures buf[..] == PaddedParity(cs + [Chunk(data, d, i)], d)
  {
    ChunkIs(data, d, i);
    var off := Offset(i, d);
    len := Min(d, |data| - off);
    pkt := DataPacketAt(h0, data, d, i, off, len);
    var c := data[off .. off + len];
    XorInto(buf, c);
    forall k | 0 <= k < d
      ensures buf[k] == XorColumn(cs + [c], k)
    {
      XorColumnSnoc(cs, c, k);
    }
  }

  /** XOR a chunk into the front of the parity buffer, byte by byte. */
  method XorInto(buf: array<byte>, c: seq<byte>)
    requires |c| <= buf.Length
    modifies buf
    ensures forall k :: 0 <= k < buf.Length ==> buf[k] == Xor(old(buf[k]), ByteAt(c, k))
  {
    var j := 0;
    while j < |c|
      invariant 0 <= j <= |c|
      invariant forall k :: 0 <= k < j ==> buf[k] == Xor(old(buf[k]), c[k])
      invariant forall k :: j <= k < buf.Length ==> buf[k] == old(buf[k])
    {
      buf[j] := Xor(buf[j], c[j]);
      j := j + 1;
    }
    forall k | |c| <= k < buf.Length
      ensures buf[k] == Xor(old(buf[k]), ByteAt(c, k))
    {
      XorUnits(old(buf[k]));
    }
  }

  /** The data packet for chunk i, built from the offset and length as `Send` computes them. */
  method DataPacketAt(h0: Header, data: seq<byte>, d: nat, i: nat, off: nat, len: nat) returns (pkt: Packet)
    requires BaseFor(h0, data, d) && i < NumChunks(|data|, d)
    requires off == Offset(i, d) && len == Min(d, |data| - off) && off + len <= |data|
    ensures pkt == DataPacket(h0, data, d, i)
  {
    ChunkIs(data, d, i);
    pkt := Packet(h0.(chunkIndex := i, chunkBytes := len, packetType := PKT_DATA), data[off .. off + len]);
  }
}
