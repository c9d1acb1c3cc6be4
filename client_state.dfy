/**
 * The browser client's shared state (client/js/state.js): the constants
 * `C`, the upper median, the clock-offset estimator, the metric snapshots
 * and the global `S`, which the network, media and renderer code update in
 * place. `S` is the class `Session`; the module-level `let`s of
 * network.js and media.js that sit beside it are fields of the same class.
 *
 * Client times are milliseconds as `real` (what `performance.now()`
 * returns); `clientTimeUs()` values are whole microseconds.
 */
module ClientState {
  import opened Bytes

  // Constants of `C`.
  const HEADER: nat := 31
  const MAX_FRAMES: nat := 20
  const FRAME_TIMEOUT_MS: real := 900.0
  const KEY_REQ_MIN_INTERVAL_MS: real := 350.0
  const FEC_GROUP_SIZE: nat := 4
  const JITTER_MAX_AGE_MS: real := 50.0
  const JITTER_SAMPLES: nat := 60
  const CLOCK_OFFSET_SAMPLES: nat := 8
  /** Largest round trip a clock probe may report, in microseconds. */
  const MAX_RTT_US: real := 5000000.0

  // Message magics of `MSG`, little-endian in the first four bytes of a control message.
  const MSG_PING: nat := 0x504E4750
  const MSG_FPS_SET: nat := 0x46505343
  const MSG_HOST_INFO: nat := 0x484F5354
  const MSG_FPS_ACK: nat := 0x46505341
  const MSG_REQUEST_KEY: nat := 0x4B455952
  const MSG_MONITOR_LIST: nat := 0x4D4F4E4C
  const MSG_MONITOR_SET: nat := 0x4D4F4E53
  const MSG_AUDIO_DATA: nat := 0x41554449
  const MSG_MOUSE_MOVE: nat := 0x4D4F5645
  const MSG_MOUSE_BTN: nat := 0x4D42544E
  const MSG_MOUSE_WHEEL: nat := 0x4D57484C
  const MSG_KEY: nat := 0x4B455920
  const MSG_CODEC_SET: nat := 0x434F4443
  const MSG_CODEC_ACK: nat := 0x434F4441
  const MSG_CODEC_CAPS: nat := 0x434F4350
  const MSG_MOUSE_MOVE_REL: nat := 0x4D4F5652
  const MSG_CLIPBOARD_DATA: nat := 0x434C4950
  const MSG_CLIPBOARD_GET: nat := 0x434C4754
  const MSG_KICKED: nat := 0x4B49434B
  const MSG_CURSOR_CAPTURE: nat := 0x43555243
  const MSG_CURSOR_SHAPE: nat := 0x43555253
  const MSG_AUDIO_ENABLE: nat := 0x41554445
  const MSG_MIC_DATA: nat := 0x4D494344
  const MSG_MIC_ENABLE: nat := 0x4D494345
  const MSG_VERSION: nat := 0x56455253

  // ---------------------------------------------------------------------
  // Sorting and the upper median
  // ---------------------------------------------------------------------

  predicate Sorted(s: seq<real>)
  {
    forall i, j :: 0 <= i < j < |s| ==> s[i] <= s[j]
  }

  /** Insert x before the first element not smaller than it. */
  function Insert(x: real, s: seq<real>): (r: seq<real>)
    ensures |r| == |s| + 1
  {
    if |s| == 0 || x <= s[0] then [x] + s else [s[0]] + Insert(x, s[1..])
  }

  /** The ascending copy `[...arr].sort((a, b) => a - b)`. */
  function Sort(xs: seq<real>): (r: seq<real>)
    ensures |r| == |xs|
  {
    if |xs| == 0 then [] else Insert(xs[|xs| - 1], Sort(xs[..|xs| - 1]))
  }

  /** Inserting keeps every element: the result is a permutation of the input plus x. */
  lemma {:induction false} InsertPerm(x: real, s: seq<real>)
    ensures multiset(Insert(x, s)) == multiset(s) + multiset{x}
  {
    if |s| > 0 && x > s[0] {
      InsertPerm(x, s[1..]);
      assert s == [s[0]] + s[1..];
    }
  }

  /** A lower bound of s that is also below x stays a lower bound after inserting x. */
  lemma {:induction false} InsertLowerBound(x: real, s: seq<real>, y: real)
    requires y <= x && forall k :: 0 <= k < |s| ==> y <= s[k]
    ensures forall k :: 0 <= k < |Insert(x, s)| ==> y <= Insert(x, s)[k]
  {
    if |s| > 0 && x > s[0] {
      InsertLowerBound(x, s[1..], y);
    }
  }

  lemma {:induction false} InsertSorted(x: real, s: seq<real>)
    requires Sorted(s)
    ensures Sorted(Insert(x, s))
  {
    if |s| > 0 && x > s[0] {
      InsertSorted(x, s[1..]);
      InsertLowerBound(x, s[1..], s[0]);
    }
  }

  /** The sorted copy is sorted and holds exactly the input's elements. */
  lemma {:induction false} SortSorted(xs: seq<real>)
    ensures Sorted(Sort(xs))
    ensures multiset(Sort(xs)) == multiset(xs)
  {
    if |xs| > 0 {
      var init := xs[..|xs| - 1];
      SortSorted(init);
      InsertSorted(xs[|xs| - 1], Sort(init));
      InsertPerm(xs[|xs| - 1], Sort(init));
      assert xs == init + [xs[|xs| - 1]];
    }
  }

  /** `median`: 0 for no samples, otherwise element n/2 of the sorted copy (the upper median). */
  function Median(xs: seq<real>): real
  {
    if |xs| == 0 then 0.0 else Sort(xs)[|xs| / 2]
  }

  /** Number of samples strictly below r, and strictly above r. */
  function Below(xs: seq<real>, r: real): nat
  {
    if |xs| == 0 then 0 else (if xs[0] < r then 1 else 0) + Below(xs[1..], r)
  }

  function Above(xs: seq<real>, r: real): nat
  {
    if |xs| == 0 then 0 else (if xs[0] > r then 1 else 0) + Above(xs[1..], r)
  }

  lemma {:induction false} CountAppend(a: seq<real>, b: seq<real>, r: real)
    ensures Below(a + b, r) == Below(a, r) + Below(b, r)
    ensures Above(a + b, r) == Above(a, r) + Above(b, r)
  {
    if |a| > 0 {
      CountAppend(a[1..], b, r);
      assert (a + b)[1..] == a[1..] + b;
    } else {
      assert a + b == b;
    }
  }

  lemma {:induction false} CountInsert(x: real, s: seq<real>, r: real)
    ensures Below(Insert(x, s), r) == Below(s, r) + (if x < r then 1 else 0)
    ensures Above(Insert(x, s), r) == Above(s, r) + (if x > r then 1 else 0)
  {
    if |s| > 0 && x > s[0] {
      CountInsert(x, s[1..], r);
    }
  }

  /** Sorting does not change how many samples lie below or above a value. */
  lemma {:induction false} CountSort(xs: seq<real>, r: real)
    ensures Below(Sort(xs), r) == Below(xs, r) && Above(Sort(xs), r) == Above(xs, r)
  {
    if |xs| > 0 {
      var init := xs[..|xs| - 1];
      CountSort(init, r);
      CountInsert(xs[|xs| - 1], Sort(init), r);
      CountAppend(init, [xs[|xs| - 1]], r);
      assert xs == init + [xs[|xs| - 1]];
    }
  }

  /** In a sorted sequence, at most k elements lie below element k and at most n-1-k above it. */
  lemma {:induction false} SortedRank(s: seq<real>, k: nat, r: real)
    requires Sorted(s) && k < |s| && r == s[k]
    ensures Below(s, r) <= k && Above(s, r) <= |s| - 1 - k
  {
    if k > 0 {
      SortedRank(s[1..], k - 1, r);
      assert s[0] <= r;
    } else {
      NoneBelow(s[1..], r);
      assert Sorted(s[1..]);
    }
    if k < |s| - 1 {
      assert s[k + 1..] == s[1..][k..];
    }
    AboveTail(s, k, r);
  }

  lemma {:induction false} NoneBelow(s: seq<real>, r: real)
    requires forall i :: 0 <= i < |s| ==> s[i] >= r
    ensures Below(s, r) == 0
  {
    if |s| > 0 {
      NoneBelow(s[1..], r);
    }
  }

  lemma {:induction false} NoneAbove(s: seq<real>, r: real)
    requires forall i :: 0 <= i < |s| ==> s[i] <= r
    ensures Above(s, r) == 0
  {
    if |s| > 0 {
      NoneAbove(s[1..], r);
    }
  }

  lemma AboveTail(s: seq<real>, k: nat, r: real)
    requires Sorted(s) && k < |s| && r == s[k]
    ensures Above(s, r) <= |s| - 1 - k
  {
    assert s == s[..k + 1] + s[k + 1..];
    CountAppend(s[..k + 1], s[k + 1..], r);
    NoneAbove(s[..k + 1], r);
    AboveBound(s[k + 1..], r);
  }

  lemma {:induction false} AboveBound(s: seq<real>, r: real)
    ensures Above(s, r) <= |s|
  {
    if |s| > 0 {
      AboveBound(s[1..], r);
    }
  }

  /**
   * The median is one of the samples, with at most n/2 samples below it
   * and at most n - 1 - n/2 above it: the upper of the two middle values.
   */
  lemma MedianRank(xs: seq<real>)
    requires |xs| > 0
    ensures Median(xs) in multiset(xs)
    ensures Below(xs, Median(xs)) <= |xs| / 2
    ensures Above(xs, Median(xs)) <= |xs| - 1 - |xs| / 2
  {
    var s := Sort(xs);
    SortSorted(xs);
    assert s[|xs| / 2] in multiset(s);
    CountSort(xs, s[|xs| / 2]);
    SortedRank(s, |xs| / 2, s[|xs| / 2]);
  }

  /** [10, 12, 11, 500] has upper median 12. */
  lemma MedianExample()
    ensures Median([10.0, 12.0, 11.0, 500.0]) == 12.0
  {
    var xs := [10.0, 12.0, 11.0, 500.0];
    assert xs[..3] == [10.0, 12.0, 11.0];
    assert xs[..3][..2] == [10.0, 12.0];
    assert xs[..3][..2][..1] == [10.0];
    assert Sort([10.0]) == [10.0];
    assert Sort([10.0, 12.0]) == [10.0, 12.0];
    assert Sort([10.0, 12.0, 11.0]) == [10.0, 11.0, 12.0];
    assert Insert(500.0, [12.0]) == [12.0, 500.0];
    assert Insert(500.0, [11.0, 12.0]) == [11.0, 12.0, 500.0];
    assert Insert(500.0, [10.0, 11.0, 12.0]) == [10.0, 11.0, 12.0, 500.0];
    assert Sort(xs) == [10.0, 11.0, 12.0, 500.0];
  }

  // ---------------------------------------------------------------------
  // Clock synchronisation
  // ---------------------------------------------------------------------

  datatype ClockSync = ClockSync(offset: real, offsetSamples: seq<real>, rttSamples: seq<real>,
                                 valid: bool, sampleCount: nat, avgRttUs: real)

  /** `mkClockSync()`. */
  const FRESH_CLOCK := ClockSync(0.0, [], [], false, 0, 0.0)

  /** `push` then at most one `shift` once the window exceeds its capacity. */
  function Push(xs: seq<real>, x: real, cap: nat): (r: seq<real>)
    requires cap > 0
    ensures |r| == if |xs| + 1 > cap then |xs| else |xs| + 1
    ensures |xs| <= cap ==> |r| <= cap
    ensures |r| > 0 && r[|r| - 1] == x
  {
    if |xs| + 1 > cap then (xs + [x])[1..] else xs + [x]
  }

  /** The window keeps the newest samples, oldest first. */
  lemma PushKeepsNewest(xs: seq<real>, x: real, cap: nat)
    requires cap > 0
    ensures Push(xs, x, cap) == (xs + [x])[|xs| + 1 - |Push(xs, x, cap)|..]
  {
  }

  /** `push` onto a sample window, then `shift` the oldest sample out once it holds more than cap. */
  method Slide(xs: seq<real>, x: real, cap: nat) returns (r: seq<real>)
    requires cap > 0
    ensures r == Push(xs, x, cap)
  {
    r := xs + [x];
    if |r| > cap {
      r := r[1..];
    }
  }

  /** The round trip of a probe, in microseconds. */
  function Rtt(sendUs: int, recvUs: int): real
  {
    (recvUs - sendUs) as real
  }

  /** The offset a probe suggests: the server's time minus the client's time half-way through the round trip. */
  function ProbeOffset(sendUs: int, serverUs: int, recvUs: int): real
  {
    serverUs as real - (sendUs as real + Rtt(sendUs, recvUs) / 2.0)
  }

  /** A probe is used only when its round trip is between 0 and 5 s. */
  predicate ProbeOk(sendUs: int, recvUs: int)
  {
    0.0 <= Rtt(sendUs, recvUs) <= MAX_RTT_US
  }

  /** `updateClockOffset` on the clock state. */
  function UpdateClock(cs: ClockSync, sendUs: int, serverUs: int, recvUs: int): (r: ClockSync)
    ensures !ProbeOk(sendUs, recvUs) ==> r == cs
    ensures ProbeOk(sendUs, recvUs) ==>
      r.sampleCount == cs.sampleCount + 1 && (r.valid <==> |r.offsetSamples| >= 2) &&
      |r.offsetSamples| > 0 && r.offsetSamples[|r.offsetSamples| - 1] == ProbeOffset(sendUs, serverUs, recvUs) &&
      |r.rttSamples| > 0 && r.rttSamples[|r.rttSamples| - 1] == Rtt(sendUs, recvUs) &&
      r.offset == Median(r.offsetSamples) && r.avgRttUs == Median(r.rttSamples)
  {
    if !ProbeOk(sendUs, recvUs) then cs
    else
      var offs := Push(cs.offsetSamples, ProbeOffset(sendUs, serverUs, recvUs), CLOCK_OFFSET_SAMPLES);
      var rtts := Push(cs.rttSamples, Rtt(sendUs, recvUs), CLOCK_OFFSET_SAMPLES);
      ClockSync(Median(offs), offs, rtts, |offs| >= 2, cs.sampleCount + 1, Median(rtts))
  }

  /** An accepted probe is pushed into both windows, which are then re-estimated. */
  lemma UpdateClockAccepted(cs: ClockSync, sendUs: int, serverUs: int, recvUs: int)
    requires ProbeOk(sendUs, recvUs)
    ensures var offs := Push(cs.offsetSamples, ProbeOffset(sendUs, serverUs, recvUs), CLOCK_OFFSET_SAMPLES);
      var rtts := Push(cs.rttSamples, Rtt(sendUs, recvUs), CLOCK_OFFSET_SAMPLES);
      UpdateClock(cs, sendUs, serverUs, recvUs) ==
        ClockSync(Median(offs), offs, rtts, |offs| >= 2, cs.sampleCount + 1, Median(rtts))
  {
  }

  /** The body of `updateClockOffset`: drop an implausible probe, else slide both windows and re-estimate. */
  method UpdateClockBy(cs: ClockSync, sendUs: int, serverUs: int, recvUs: int) returns (r: ClockSync)
    ensures r == UpdateClock(cs, sendUs, serverUs, recvUs)
  {
    var rttUs := Rtt(sendUs, recvUs);
    if rttUs < 0.0 || rttUs > MAX_RTT_US {
      return cs;
    }
    var offs := Slide(cs.offsetSamples, ProbeOffset(sendUs, serverUs, recvUs), CLOCK_OFFSET_SAMPLES);
    var rtts := Slide(cs.rttSamples, rttUs, CLOCK_OFFSET_SAMPLES);
    UpdateClockAccepted(cs, sendUs, serverUs, recvUs);
    r := ClockSync(Median(offs), offs, rtts, |offs| >= 2, cs.sampleCount + 1, Median(rtts));
  }

  /** The windows never hold more than 8 probes, and the clock is valid from the second probe on. */
  lemma ClockWindows(cs: ClockSync, sendUs: int, serverUs: int, recvUs: int)
    requires |cs.offsetSamples| <= CLOCK_OFFSET_SAMPLES && |cs.rttSamples| <= CLOCK_OFFSET_SAMPLES
    requires |cs.offsetSamples| == Min(cs.sampleCount, CLOCK_OFFSET_SAMPLES)
    ensures var r := UpdateClock(cs, sendUs, serverUs, recvUs);
      |r.offsetSamples| <= CLOCK_OFFSET_SAMPLES && |r.rttSamples| <= CLOCK_OFFSET_SAMPLES &&
      |r.offsetSamples| == Min(r.sampleCount, CLOCK_OFFSET_SAMPLES) &&
      (ProbeOk(sendUs, recvUs) ==> (r.valid <==> r.sampleCount >= 2))
  {
  }

  /** `serverFrameAgeMs`: how long ago, in client time, the server captured ts; 0 without a valid clock. */
  function ServerFrameAgeMs(cs: ClockSync, nowUs: int, ts: real): (r: real)
    ensures r >= 0.0
    ensures !cs.valid ==> r == 0.0
    ensures cs.valid && nowUs as real >= ts - cs.offset ==> r * 1000.0 == nowUs as real - (ts - cs.offset)
  {
    if !cs.valid then 0.0 else RMax(0.0, (nowUs as real - (ts - cs.offset)) / 1000.0)
  }

  function RMax(a: real, b: real): real { if a >= b then a else b }
  function RMin(a: real, b: real): real { if a <= b then a else b }

  // ---------------------------------------------------------------------
  // Metrics
  // ---------------------------------------------------------------------

  /** `avg`: the mean, 0 when nothing was counted. */
  function Avg(sum: real, count: nat): (r: real)
    ensures count > 0 ==> r * count as real == sum
    ensures count == 0 ==> r == 0.0
  {
    if count > 0 then sum / count as real else 0.0
  }

  datatype Stats = Stats(bytes: nat, moves: nat, clicks: nat, keys: nat, framesComplete: nat,
                         framesDropped: nat, framesTimeout: nat, keyframesReceived: nat,
                         decodeErrors: nat, renderErrors: nat, lastUpdate: real)

  function FreshStats(nowMs: real): Stats
  {
    Stats(0, 0, 0, 0, 0, 0, 0, 0, 0, 0, nowMs)
  }

  datatype Jitter = Jitter(framesDroppedLate: nat, frameAgeSum: real, frameAgeSamples: nat,
                           presentIntervals: seq<real>, lastPresentTs: real, serverAgeSum: real,
                           serverAgeSamples: nat, avgFrameAgeMs: real, avgServerAgeMs: real,
                           intervalMean: real, intervalVariance: real)

  const FRESH_JITTER := Jitter(0, 0.0, 0, [], 0.0, 0.0, 0, 0.0, 0.0, 0.0, 0.0)

  /**
   * `intervalVariance` is the square of the source's `intervalStdDev`: the
   * population variance of the presentation intervals, before `Math.sqrt`.
   */
  datatype JitterReport = JitterReport(avgFrameAgeMs: real, avgServerAgeMs: real, intervalMean: real,
                                       intervalVariance: real, framesDroppedLate: nat)

  function Sum(xs: seq<real>): real
  {
    if |xs| == 0 then 0.0 else Sum(xs[..|xs| - 1]) + xs[|xs| - 1]
  }

  /** The squared deviations of `xs` from `mean`, summed; never negative. */
  function SumSquares(xs: seq<real>, mean: real): (r: real)
    ensures r >= 0.0
  {
    if |xs| == 0 then 0.0
    else
      var d := xs[|xs| - 1] - mean;
      SquareNonNegative(d);
      SumSquares(xs[..|xs| - 1], mean) + d * d
  }

  lemma SquareNonNegative(d: real)
    ensures d * d >= 0.0
  {
    if d < 0.0 {
      assert d * d == (-d) * (-d);
    }
  }

  /** The report `resetJitterMetrics` returns. */
  function JitterSnapshot(m: Jitter): (r: JitterReport)
    ensures r.framesDroppedLate == m.framesDroppedLate
    ensures m.frameAgeSamples > 0 ==> r.avgFrameAgeMs * m.frameAgeSamples as real == m.frameAgeSum
    ensures m.frameAgeSamples == 0 ==> r.avgFrameAgeMs == 0.0
    ensures m.serverAgeSamples > 0 ==> r.avgServerAgeMs * m.serverAgeSamples as real == m.serverAgeSum
    ensures m.serverAgeSamples == 0 ==> r.avgServerAgeMs == 0.0
    ensures |m.presentIntervals| > 1 ==>
      r.intervalMean * |m.presentIntervals| as real == Sum(m.presentIntervals)
    ensures |m.presentIntervals| <= 1 ==> r.intervalMean == m.intervalMean
    ensures |m.presentIntervals| > 1 ==>
      r.intervalVariance * |m.presentIntervals| as real == SumSquares(m.presentIntervals, r.intervalMean) &&
      r.intervalVariance >= 0.0
    ensures |m.presentIntervals| <= 1 ==> r.intervalVariance == m.intervalVariance
  {
    var n := |m.presentIntervals|;
    var mean := if n > 1 then Sum(m.presentIntervals) / n as real else m.intervalMean;
    var variance := if n > 1 then SumSquares(m.presentIntervals, mean) / n as real else m.intervalVariance;
    JitterReport(Avg(m.frameAgeSum, m.frameAgeSamples), Avg(m.serverAgeSum, m.serverAgeSamples),
                 mean, variance, m.framesDroppedLate)
  }

  /** Intervals that all equal `c` sum to `c` once per interval. */
  lemma {:induction false} SumConstant(xs: seq<real>, c: real)
    requires forall i :: 0 <= i < |xs| ==> xs[i] == c
    ensures Sum(xs) == |xs| as real * c
  {
    if |xs| > 0 {
      SumConstant(xs[..|xs| - 1], c);
    }
  }

  /** Intervals that all equal `c` do not deviate from `c`. */
  lemma {:induction false} SquaresConstant(xs: seq<real>, c: real)
    requires forall i :: 0 <= i < |xs| ==> xs[i] == c
    ensures SumSquares(xs, c) == 0.0
  {
    if |xs| > 0 {
      SquaresConstant(xs[..|xs| - 1], c);
    }
  }

  /** Frames presented at a steady interval report that interval as the mean and no deviation. */
  lemma SteadyPresentationNoJitter(m: Jitter, c: real)
    requires |m.presentIntervals| > 1
    requires forall i :: 0 <= i < |m.presentIntervals| ==> m.presentIntervals[i] == c
    ensures JitterSnapshot(m).intervalMean == c && JitterSnapshot(m).intervalVariance == 0.0
  {
    SumConstant(m.presentIntervals, c);
    SquaresConstant(m.presentIntervals, c);
  }

  /** Counters of `S.networkMetrics` and their snapshot (with `avgPacketSize`). */
  datatype NetMetrics = NetMetrics(packetsReceived: nat, videoPackets: nat, controlPackets: nat,
                                   audioPackets: nat, micPackets: nat, bytesReceived: nat)

  const FRESH_NET := NetMetrics(0, 0, 0, 0, 0, 0)

  /** `recordPacket`: one more packet, counted under exactly one type; unknown types count as control. */
  function RecordPacket(m: NetMetrics, size: nat, kind: string): (r: NetMetrics)
    ensures r.packetsReceived == m.packetsReceived + 1 && r.bytesReceived == m.bytesReceived + size
    ensures r.videoPackets + r.audioPackets + r.micPackets + r.controlPackets ==
            m.videoPackets + m.audioPackets + m.micPackets + m.controlPackets + 1
    ensures r.videoPackets == m.videoPackets + (if kind == "video" then 1 else 0)
    ensures r.audioPackets == m.audioPackets + (if kind == "audio" then 1 else 0)
    ensures r.micPackets == m.micPackets + (if kind == "mic" then 1 else 0)
  {
    var n := m.(packetsReceived := m.packetsReceived + 1, bytesReceived := m.bytesReceived + size);
    if kind == "video" then n.(videoPackets := n.videoPackets + 1)
    else if kind == "audio" then n.(audioPackets := n.audioPackets + 1)
    else if kind == "mic" then n.(micPackets := n.micPackets + 1)
    else n.(controlPackets := n.controlPackets + 1)
  }

  datatype DecodeMetrics = DecodeMetrics(decodeCount: nat, decodeTimeSum: real, maxQueueSize: nat)

  const FRESH_DECODE := DecodeMetrics(0, 0.0, 0)

  /** `recordDecodeTime`: counts the decode and keeps the largest queue size seen. */
  function RecordDecodeTime(m: DecodeMetrics, time: real, queueSize: nat): (r: DecodeMetrics)
    ensures r.decodeCount == m.decodeCount + 1 && r.decodeTimeSum == m.decodeTimeSum + time
    ensures r.maxQueueSize >= m.maxQueueSize && r.maxQueueSize >= queueSize
    ensures r.maxQueueSize == m.maxQueueSize || r.maxQueueSize == queueSize
  {
    DecodeMetrics(m.decodeCount + 1, m.decodeTimeSum + time, Max(m.maxQueueSize, queueSize))
  }

  datatype RenderMetrics = RenderMetrics(renderCount: nat, renderTimeSum: real)

  const FRESH_RENDER := RenderMetrics(0, 0.0)

  datatype AudioMetrics = AudioMetrics(packetsReceived: nat, packetsDecoded: nat, packetsDropped: nat,
                                       bufferUnderruns: nat, bufferOverflows: nat,
                                       bufferHealthSum: real, bufferHealthSamples: nat)

  const FRESH_AUDIO := AudioMetrics(0, 0, 0, 0, 0, 0.0, 0)

  /**
   * A `resetMetric` snapshot: the counters as they were, and the average
   * the caller names (`avgPacketSize`, `avgDecodeTimeMs`, ...), 0 with no samples.
   */
  datatype Snapshot<M> = Snapshot(counters: M, average: real)

  function NetSnapshot(m: NetMetrics): (r: Snapshot<NetMetrics>)
    ensures r.counters == m
    ensures m.packetsReceived > 0 ==> r.average * m.packetsReceived as real == m.bytesReceived as real
    ensures m.packetsReceived == 0 ==> r.average == 0.0
  {
    Snapshot(m, Avg(m.bytesReceived as real, m.packetsReceived))
  }

  function DecodeSnapshot(m: DecodeMetrics): (r: Snapshot<DecodeMetrics>)
    ensures r.counters == m
    ensures m.decodeCount > 0 ==> r.average * m.decodeCount as real == m.decodeTimeSum
    ensures m.decodeCount == 0 ==> r.average == 0.0
  {
    Snapshot(m, Avg(m.decodeTimeSum, m.decodeCount))
  }

  function RenderSnapshot(m: RenderMetrics): (r: Snapshot<RenderMetrics>)
    ensures r.counters == m
    ensures m.renderCount > 0 ==> r.average * m.renderCount as real == m.renderTimeSum
    ensures m.renderCount == 0 ==> r.average == 0.0
  {
    Snapshot(m, Avg(m.renderTimeSum, m.renderCount))
  }

  function AudioSnapshot(m: AudioMetrics): (r: Snapshot<AudioMetrics>)
    ensures r.counters == m
    ensures m.bufferHealthSamples > 0 ==> r.average * m.bufferHealthSamples as real == m.bufferHealthSum
    ensures m.bufferHealthSamples == 0 ==> r.average == 0.0
  {
    Snapshot(m, Avg(m.bufferHealthSum, m.bufferHealthSamples))
  }

  // ---------------------------------------------------------------------
  // Codec detection
  // ---------------------------------------------------------------------

  /** Which decoders `detectCodecs` found, in software (any) and in hardware. */
  datatype CodecSupport = CodecSupport(av1: bool, h265: bool, h264: bool, av1Hw: bool, h265Hw: bool, h264Hw: bool)

  datatype BestCodec = BestCodec(codecId: nat, hardwareAccel: bool)

  /** The best decoder: AV1-HW, then AV1, then H.265-HW, then H.265, else H.264. */
  function Best(sup: CodecSupport): (r: BestCodec)
    ensures r.codecId <= 2
    ensures r.codecId == 0 <==> sup.av1Hw || sup.av1
    ensures r.codecId == 1 <==> !sup.av1Hw && !sup.av1 && (sup.h265Hw || sup.h265)
    ensures r.codecId == 0 ==> (r.hardwareAccel <==> sup.av1Hw)
    ensures r.codecId == 1 ==> (r.hardwareAccel <==> sup.h265Hw)
    ensures r.codecId == 2 ==> (r.hardwareAccel <==> sup.h264Hw)
  {
    if sup.av1Hw then BestCodec(0, true)
    else if sup.av1 then BestCodec(0, false)
    else if sup.h265Hw then BestCodec(1, true)
    else if sup.h265 then BestCodec(1, false)
    else BestCodec(2, sup.h264Hw)
  }

  // ---------------------------------------------------------------------
  // The global S
  // ---------------------------------------------------------------------

  /** One frame being reassembled (a value of `S.chunks`). */
  datatype PendingFrame = PendingFrame(
    parts: seq<Option<seq<byte>>>, partSizes: seq<nat>, total: nat, received: nat,
    capTs: nat, encodeUs: nat, arrivalMs: real, isKey: bool,
    frameSize: nat, dataChunkSize: nat, fecGroupSize: nat,
    /** `fecParts`: parity by group index; `fecOrder` is the map's insertion order. */
    fecParts: map<nat, seq<byte>>, fecOrder: seq<nat>, fecRecovered: nat)

  /** An entry of `S.chunks`; the table is kept in insertion order, as a JS `Map` iterates. */
  datatype Entry = Entry(id: nat, frame: PendingFrame)

  /** What `decodeFrame` remembers per capture time in `S.frameMeta`. */
  datatype FrameMeta = FrameMeta(capTs: nat, decodeStartMs: real, arrivalMs: real)

  /** A chunk handed to the video decoder. */
  datatype DecodeJob = DecodeJob(buf: seq<byte>, capTs: nat, isKey: bool, duration: nat)

  /** An entry of `S.monitors` as `parseMonitorList` builds it. */
  datatype Monitor = Monitor(index: nat, width: nat, height: nat, refreshRate: nat, isPrimary: bool, name: seq<byte>)

  /** `{ x, y, w, h }` of a viewport. */
  datatype Viewport = Viewport(x: int, y: int, w: int, h: int)

  /**
   * The part of the session the video path reads and writes: `S.chunks`,
   * the decoder flags and counters, the control channel, and the
   * module-level state of network.js and media.js.
   */
  datatype VideoPath = VideoPath(
    chunks: seq<Entry>, lastFrameId: nat, needKey: bool, ready: bool, reinit: bool,
    stats: Stats, net: NetMetrics, frameMeta: map<nat, FrameMeta>, decoded: seq<DecodeJob>,
    ctrlOpen: bool, ctrlSent: seq<seq<byte>>, lastKeyReqAt: real, keyReqTimer: bool,
    decoderConfigured: bool, decodeQueueSize: nat, kfRetry: bool, lastCaptureTs: nat,
    waitingFirstFrame: bool, hasConnection: bool)

  /** `logVideoDrop` as the video path sees it: one more dropped frame. */
  function VideoDrop(v: VideoPath): VideoPath
  {
    v.(stats := v.stats.(framesDropped := v.stats.framesDropped + 1))
  }

  class Session {
    // Fields of S.
    var ready: bool
    var needKey: bool
    var reinit: bool
    var width: int
    var height: int
    var hostFps: nat
    var currentFps: nat
    var currentFpsMode: nat
    var monitors: seq<Monitor>
    var currentMon: nat
    var relativeMouseMode: bool
    var pointerLocked: bool
    var currentCodec: nat
    /** `S.hostCodecs`: the codec bitmask the host reported. */
    var hostCodecs: nat
    var chunks: seq<Entry>
    var frameMeta: map<nat, FrameMeta>
    var lastFrameId: nat
    var stats: Stats
    var clock: ClockSync
    var jitter: Jitter
    var net: NetMetrics
    var decodeMetrics: DecodeMetrics
    var renderMetrics: RenderMetrics
    var audioMetrics: AudioMetrics
    var hostVersion: Option<seq<byte>>
    var lastVp: Viewport
    /** `S.dcControl.readyState === 'open'`, and what `sendControl` has sent. */
    var ctrlOpen: bool
    var ctrlSent: seq<seq<byte>>
    /** `S.decoder.state === 'configured'`, its `decodeQueueSize`, and what it was given. */
    var decoderConfigured: bool
    var decodeQueueSize: nat
    var decoded: seq<DecodeJob>
    // Module-level state of network.js.
    var lastKeyReqAt: real
    /** `pendingKeyReqTimer` is armed. */
    var keyReqTimer: bool
    var waitingFirstFrame: bool
    var hasConnection: bool
    // Module-level state of media.js.
    /** `kfRetryInterval` is running. */
    var kfRetry: bool
    var lastCaptureTs: nat
    // Module-level state of renderer.js.
    var hasValidTexture: bool
    var lastViewport: Option<Viewport>
    var cursor: string

    /** The page as it loads: `S` as state.js declares it. */
    constructor (nowMs: real)
      ensures !ready && needKey && !reinit && chunks == [] && frameMeta == map[] && lastFrameId == 0
      ensures clock == FRESH_CLOCK && jitter == FRESH_JITTER && stats == FreshStats(nowMs)
      ensures net == FRESH_NET && decodeMetrics == FRESH_DECODE && renderMetrics == FRESH_RENDER
      ensures currentCodec == 1 && hostFps == 60 && currentFps == 60 && !keyReqTimer && !kfRetry
      ensures ctrlSent == [] && decoded == [] && lastKeyReqAt == 0.0 && lastCaptureTs == 0
    {
      ready := false;
      needKey := true;
      reinit := false;
      width := 0;
      height := 0;
      hostFps := 60;
      currentFps := 60;
      currentFpsMode := 0;
      monitors := [];
      currentMon := 0;
      relativeMouseMode := false;
      pointerLocked := false;
      currentCodec := 1;
      hostCodecs := 7;
      chunks := [];
      frameMeta := map[];
      lastFrameId := 0;
      stats := FreshStats(nowMs);
      clock := FRESH_CLOCK;
      jitter := FRESH_JITTER;
      net := FRESH_NET;
      decodeMetrics := FRESH_DECODE;
      renderMetrics := FRESH_RENDER;
      audioMetrics := FRESH_AUDIO;
      hostVersion := None;
      lastVp := Viewport(0, 0, 0, 0);
      ctrlOpen := false;
      ctrlSent := [];
      decoderConfigured := false;
      decodeQueueSize := 0;
      decoded := [];
      lastKeyReqAt := 0.0;
      keyReqTimer := false;
      waitingFirstFrame := false;
      hasConnection := false;
      kfRetry := false;
      lastCaptureTs := 0;
      hasValidTexture := false;
      lastViewport := None;
      cursor := "default";
    }

    /** The video path's view of the session. */
    function View(): VideoPath
      reads this
    {
      VideoPath(chunks, lastFrameId, needKey, ready, reinit, stats, net, frameMeta, decoded,
                ctrlOpen, ctrlSent, lastKeyReqAt, keyReqTimer, decoderConfigured, decodeQueueSize,
                kfRetry, lastCaptureTs, waitingFirstFrame, hasConnection)
    }

    /** `logVideoDrop`: every dropped packet or frame is counted. */
    method LogVideoDrop()
      modifies this`stats
      ensures stats == old(stats).(framesDropped := old(stats).framesDropped + 1)
    {
      stats := stats.(framesDropped := stats.framesDropped + 1);
    }

    /** `sendControl`: the message goes out only while the control channel is open. */
    method SendControl(msg: seq<byte>) returns (sent: bool)
      modifies this`ctrlSent
      ensures sent == ctrlOpen
      ensures ctrlSent == old(ctrlSent) + (if ctrlOpen then [msg] else [])
    {
      sent := ctrlOpen;
      if sent {
        ctrlSent := ctrlSent + [msg];
      }
    }

    /** `updateClockOffset`: push the probe into both windows and re-estimate. */
    method UpdateClockOffset(sendUs: int, serverUs: int, recvUs: int)
      modifies this`clock
      ensures clock == UpdateClock(old(clock), sendUs, serverUs, recvUs)
    {
      clock := UpdateClockBy(clock, sendUs, serverUs, recvUs);
    }

    method ResetClockSync()
      modifies this`clock
      ensures clock == FRESH_CLOCK
    {
      clock := FRESH_CLOCK;
    }

    /** `resetStats`: the counters so far and the time they cover; counting restarts at nowMs. */
    method ResetStats(nowMs: real) returns (snapshot: Stats, elapsed: real)
      modifies this`stats
      ensures snapshot == old(stats) && elapsed == nowMs - old(stats).lastUpdate
      ensures stats == FreshStats(nowMs)
    {
      elapsed := nowMs - stats.lastUpdate;
      snapshot := stats;
      stats := FreshStats(nowMs);
    }

    /** `resetJitterMetrics`: report and restart, keeping only the last presentation time. */
    method ResetJitterMetrics() returns (report: JitterReport)
      modifies this`jitter
      ensures report == JitterSnapshot(old(jitter))
      ensures jitter == FRESH_JITTER.(lastPresentTs := old(jitter).lastPresentTs)
    {
      report := JitterSnapshot(jitter);
      var lastTs := jitter.lastPresentTs;
      jitter := FRESH_JITTER.(lastPresentTs := lastTs);
    }

    method ResetNetworkMetrics() returns (snap: Snapshot<NetMetrics>)
      modifies this`net
      ensures snap == NetSnapshot(old(net)) && net == FRESH_NET
    {
      snap := NetSnapshot(net);
      net := FRESH_NET;
    }

    method ResetDecodeMetrics() returns (snap: Snapshot<DecodeMetrics>)
      modifies this`decodeMetrics
      ensures snap == DecodeSnapshot(old(decodeMetrics)) && decodeMetrics == FRESH_DECODE
    {
      snap := DecodeSnapshot(decodeMetrics);
      decodeMetrics := FRESH_DECODE;
    }

    method ResetRenderMetrics() returns (snap: Snapshot<RenderMetrics>)
      modifies this`renderMetrics
      ensures snap == RenderSnapshot(old(renderMetrics)) && renderMetrics == FRESH_RENDER
    {
      snap := RenderSnapshot(renderMetrics);
      renderMetrics := FRESH_RENDER;
    }

    method ResetAudioMetrics() returns (snap: Snapshot<AudioMetrics>)
      modifies this`audioMetrics
      ensures snap == AudioSnapshot(old(audioMetrics)) && audioMetrics == FRESH_AUDIO
    {
      snap := AudioSnapshot(audioMetrics);
      audioMetrics := FRESH_AUDIO;
    }

    method RecordPacketOf(size: nat, kind: string)
      modifies this`net
      ensures net == RecordPacket(old(net), size, kind)
    {
      net := RecordPacket(net, size, kind);
    }

    method RecordRenderTime(time: real)
      modifies this`renderMetrics
      ensures renderMetrics == RenderMetrics(old(renderMetrics).renderCount + 1, old(renderMetrics).renderTimeSum + time)
    {
      renderMetrics := RenderMetrics(renderMetrics.renderCount + 1, renderMetrics.renderTimeSum + time);
    }
  }
}
