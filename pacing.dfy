/**
 * The encoder thread of the server (the loop in `main`, src/main.cpp) and
 * the `WiggleManager` that debounces cursor wiggles.
 *
 * Each turn of the encoder loop takes one frame popped from the capture
 * ring. It decides, from the frame's generation and timestamp and from
 * `nextTs`, the time the next frame is due, whether to drop the frame,
 * hold it as the candidate closest to `nextTs`, or hand a frame to the
 * encoder. Every frame it is done with has its pool slot released. What
 * the encoder and the network answer, the clock, the capture generation
 * and the streaming flags are inputs of the turn.
 */
module Pacing {
  import opened Bytes
  import opened Capture

  /** The initial pacing period (60 fps), in microseconds. */
  const INITIAL_PERIOD: int := 16667

  /** `1000000 / fps`, with a non-positive rate read as 60. */
  function Period(fps: int): (p: int)
    requires fps <= 1000000
    ensures p >= 1
    ensures fps <= 0 ==> p == 16666
    ensures fps > 0 ==> p * fps <= 1000000 < (p + 1) * fps
  {
    var f := if fps <= 0 then 60 else fps;
    1000000 / f
  }

  /** What became of a frame handed to the encoder. */
  datatype Encoding =
    | Skipped    // no encoder, or the session stopped streaming
    | NoPacket   // `Encode` produced nothing
    | Sent       // encoded and `Send` succeeded
    | Refused    // encoded but `Send` returned false
    | Threw      // `Encode` or `Send` threw

  /** What one turn of the loop sees besides the popped frame. */
  datatype Tick = Tick(
    now: int,          // `GetTimestamp()` after the pop
    curGen: nat,       // the ring's generation after the pop
    streaming: bool,   // `IsStreaming() && encReady`
    fps: int,          // `targetFps`
    needsKey: bool,    // `NeedsKey()`, true if it threw
    synced: bool,      // what `WaitReady(fence)` returns, when the frame needs a sync
    encoding: Encoding,
    emitGen: nat)      // the ring's generation when the held frame is about to be encoded

  /** The loop's state between turns. */
  datatype Pace = Pace(
    hasPf: bool, pf: FrameData, nextTs: int, period: int, lastGen: nat, wasStr: bool,
    encoded: nat, dropped: nat, errors: nat, lastEncTs: int)

  /** A frame handed to the encoder, and whether as a keyframe. */
  datatype Submit = Submit(frame: FrameData, key: bool)

  /** A turn's new state, the pool slots it released in order, and the frame it encoded. */
  datatype Turn = Turn(s: Pace, released: seq<int>, submitted: Option<Submit>)

  /** The state before the first turn. */
  function Start(gen: nat): Pace
  {
    Pace(false, EMPTY_FRAME, 0, INITIAL_PERIOD, gen, false, 0, 0, 0, 0)
  }

  /** The pool slot of the held frame, if there is one. */
  function Held(s: Pace): multiset<int>
  {
    if s.hasPf then multiset{s.pf.poolIdx} else multiset{}
  }

  /** The held frame is released: its slot is appended to rel. */
  function Drop(t: Turn): (r: Turn)
  {
    if t.s.hasPf then t.(s := t.s.(hasPf := false), released := t.released + [t.s.pf.poolIdx]) else t
  }

  /** The counters after an encode attempt. */
  function Count(s: Pace, f: FrameData, e: Encoding): (r: Pace)
    ensures r.hasPf == s.hasPf && r.pf == s.pf && r.nextTs == s.nextTs && r.period == s.period
  {
    match e
    case Sent => s.(encoded := s.encoded + 1, lastEncTs := f.ts)
    case Threw => s.(errors := s.errors + 1)
    case _ => s
  }

  /** The frame handed to the encoder, unless there was no encoder. */
  function Handed(f: FrameData, key: bool, e: Encoding): Option<Submit>
  {
    if e == Skipped then None else Some(Submit(f, key))
  }

  /** `while (nextTs < now - period) nextTs += period`, in closed form. */
  function CatchUp(nextTs: int, now: int, period: int): (r: int)
    requires period > 0
  {
    if nextTs >= now - period then nextTs
    else nextTs + period * ((now - period - nextTs + period - 1) / period)
  }

  /**
   * The catch-up moves nextTs by whole periods to the first due time no
   * earlier than now - period, and leaves one already there alone.
   */
  lemma CatchUpLands(nextTs: int, now: int, period: int)
    requires period > 0
    ensures var r := CatchUp(nextTs, now, period);
      r >= now - period && r >= nextTs && (r - nextTs) % period == 0 &&
      (r > nextTs ==> r - period < now - period)
  {
    if nextTs < now - period {
      var gap := now - period - nextTs;
      var q := (gap + period - 1) / period;
      var rem := (gap + period - 1) % period;
      assert gap + period - 1 == q * period + rem;
      assert q * period >= gap;
      assert (q - 1) * period < gap;
      assert nextTs + period * q - nextTs == q * period;
      DivisibleStep(q, period);
    }
  }

  lemma DivisibleStep(q: int, period: int)
    requires period > 0
    ensures (q * period) % period == 0
  {
    DivIs(q * period, q, 0, period);
  }

  /** The quotient and remainder of x by n are the unique q, r with x == q * n + r and 0 <= r < n. */
  lemma DivIs(x: int, q: int, r: int, n: int)
    requires n > 0 && x == q * n + r && 0 <= r < n
    ensures x / n == q && x % n == r
  {
    var q2 := x / n;
    var r2 := x % n;
    assert (q - q2) * n == r2 - r;
    if q > q2 {
      MulAtLeast(q - q2, n);
    } else if q < q2 {
      MulAtLeast(q2 - q, n);
    }
  }

  lemma MulAtLeast(d: int, n: int)
    requires d >= 1 && n > 0
    ensures d * n >= n
  {
  }

  // ---------------------------------------------------------------------
  // One turn of the encoder loop, stage by stage
  // ---------------------------------------------------------------------

  /** A generation change releases the held frame and restarts the pacing clock. */
  function Regen(s: Pace, curGen: nat): (r: Turn)
  {
    if curGen != s.lastGen then Drop(Turn(s, [], None)).(s := Drop(Turn(s, [], None)).s.(lastGen := curGen, nextTs := 0))
    else Turn(s, [], None)
  }

  /** When streaming starts: the period is recomputed, `lastEncTs` and `nextTs` cleared, the held frame released. */
  function StartStreaming(t: Turn, streaming: bool, fps: int): (r: Turn)
    requires fps <= 1000000
  {
    var r := if streaming && !t.s.wasStr then Drop(t.(s := t.s.(period := Period(fps), lastEncTs := 0, nextTs := 0))) else t;
    r.(s := r.s.(wasStr := streaming))
  }

  /** The keyframe path: the held frame goes, and the new frame is encoded as a keyframe unless its sync fails. */
  function KeyPath(t: Turn, fd: FrameData, k: Tick): (r: Turn)
  {
    var u := Drop(t);
    if fd.needsSync && !k.synced then
      u.(s := u.s.(dropped := u.s.dropped + 1), released := u.released + [fd.poolIdx])
    else
      var s := Count(u.s, fd, k.encoding);
      var s' := if k.encoding == Sent then s.(nextTs := fd.ts + s.period) else s;
      Turn(s', u.released + [fd.poolIdx], Handed(fd, true, k.encoding))
  }

  /** The held candidate after frame fd arrives: the one strictly closer to nextTs (the old one on a tie). */
  function Hold(t: Turn, fd: FrameData, curGen: nat): (r: Turn)
    ensures r.s.period == t.s.period && r.s.nextTs == t.s.nextTs
  {
    var u := if t.s.hasPf && t.s.pf.generation != curGen then Drop(t) else t;
    if !u.s.hasPf then u.(s := u.s.(hasPf := true, pf := fd))
    else if Abs(fd.ts - u.s.nextTs) < Abs(u.s.pf.ts - u.s.nextTs) then
      u.(s := u.s.(pf := fd), released := u.released + [u.s.pf.poolIdx])
    else u.(released := u.released + [fd.poolIdx])
  }

  function Abs(x: int): nat
  {
    if x < 0 then -x else x
  }

  /** Whether the held frame is due: it is not early, or half a period has passed since nextTs. */
  predicate Due(s: Pace, now: int)
  {
    s.hasPf && (s.pf.ts >= s.nextTs || now >= s.nextTs + s.period / 2)
  }

  /** Emitting the held frame, if due: dropped if its generation is gone, it is too old, or its sync fails. */
  function Emit(t: Turn, k: Tick): (r: Turn)
    requires t.s.period > 0
  {
    var s := t.s;
    if !Due(s, k.now) then t
    else if s.pf.generation != k.emitGen then Drop(t)
    else if k.now - s.pf.ts > s.period * 2 then Stale(t, k.now)
    else if s.pf.needsSync && !k.synced then Unsynced(t)
    else Encoded(t, k)
  }

  /** A held frame more than two periods old is dropped, and nextTs catches up to now. */
  function Stale(t: Turn, now: int): (r: Turn)
    requires t.s.period > 0
  {
    var u := Drop(t);
    u.(s := u.s.(dropped := u.s.dropped + 1, nextTs := CatchUp(t.s.nextTs, now, t.s.period)))
  }

  /** A held frame whose sync fails is dropped. */
  function Unsynced(t: Turn): (r: Turn)
  {
    var u := Drop(t);
    u.(s := u.s.(dropped := u.s.dropped + 1))
  }

  /** The held frame is handed to the encoder and released; nextTs advances one period, or snaps to now. */
  function Encoded(t: Turn, k: Tick): (r: Turn)
  {
    var s := t.s;
    var u := Drop(t.(s := Count(s, s.pf, k.encoding)));
    var next := s.nextTs + s.period;
    Turn(u.s.(nextTs := if next < k.now - s.period * 2 then k.now else next), u.released, Handed(s.pf, false, k.encoding))
  }

  /** The popped frame is released and counted as dropped. */
  function Discard(t: Turn, fd: FrameData): (r: Turn)
  {
    t.(s := t.s.(dropped := t.s.dropped + 1), released := t.released + [fd.poolIdx])
  }

  /** The popped frame is released without being counted. */
  function Skip(t: Turn, fd: FrameData): (r: Turn)
  {
    t.(released := t.released + [fd.poolIdx])
  }

  /** The period for this turn's rate, and nextTs seeded from the frame's timestamp when it is 0. */
  function Seeded(t: Turn, fd: FrameData, fps: int): (r: Turn)
    requires fps <= 1000000
    ensures r.s.period == Period(fps) >= 1
  {
    var u := t.(s := t.s.(period := Period(fps)));
    if u.s.nextTs == 0 then u.(s := u.s.(nextTs := fd.ts)) else u
  }

  /** The keyframe path, the early-frame drop, or the held candidate and its emission. */
  function Paced(t: Turn, fd: FrameData, k: Tick): (r: Turn)
    requires t.s.period > 0
  {
    if k.needsKey then KeyPath(t, fd, k)
    // `-period * 3 / 2` truncates toward zero in C++; with a positive period that is -(period * 3 / 2)
    else if fd.ts - t.s.nextTs < -(t.s.period * 3 / 2) then Discard(t, fd)
    else Emit(Hold(t, fd, k.curGen), k)
  }

  /** One turn of the encoder loop with the popped frame fd. */
  function Step(s: Pace, fd: FrameData, k: Tick): (r: Turn)
    requires k.fps <= 1000000
  {
    var t0 := Regen(s, k.curGen);
    if fd.generation != k.curGen then Discard(t0, fd) else Live(t0, fd, k)
  }

  /** The rest of a turn for a frame of the current generation: the streaming edge, then pacing if streaming. */
  function Live(t: Turn, fd: FrameData, k: Tick): (r: Turn)
    requires k.fps <= 1000000
  {
    var t1 := StartStreaming(t, k.streaming, k.fps);
    if !k.streaming || fd.tex == 0 then Skip(t1, fd)
    else Paced(Seeded(t1, fd, k.fps), fd, k)
  }

  // ---------------------------------------------------------------------
  // What a turn promises
  // ---------------------------------------------------------------------

  /**
   * No pool slot leaks and none is released twice: the slots a turn
   * releases plus the one it holds afterwards are exactly the popped
   * frame's plus the one held before.
   */
  lemma SlotsAccounted(s: Pace, fd: FrameData, k: Tick)
    requires k.fps <= 1000000
    ensures var r := Step(s, fd, k);
      multiset(r.released) + Held(r.s) == multiset{fd.poolIdx} + Held(s)
  {
    if fd.generation != k.curGen {
      StaleAccounted(s, fd, k);
    } else {
      FreshAccounted(s, fd, k);
    }
  }

  lemma StaleAccounted(s: Pace, fd: FrameData, k: Tick)
    requires k.fps <= 1000000 && fd.generation != k.curGen
    ensures var r := Step(s, fd, k);
      multiset(r.released) + Held(r.s) == multiset{fd.poolIdx} + Held(s)
  {
    var t := Turn(s, [], None);
    var t0 := Regen(s, k.curGen);
    DropAccounted(t);
    assert Step(s, fd, k) == Discard(t0, fd);
  }

  lemma FreshAccounted(s: Pace, fd: FrameData, k: Tick)
    requires k.fps <= 1000000 && fd.generation == k.curGen
    ensures var r := Step(s, fd, k);
      multiset(r.released) + Held(r.s) == multiset{fd.poolIdx} + Held(s)
  {
    var t := Turn(s, [], None);
    var t0 := Regen(s, k.curGen);
    DropAccounted(t);
    LiveAccounted(t0, fd, k);
    assert Step(s, fd, k) == Live(t0, fd, k);
    Chain(Live(t0, fd, k), t0, t, fd.poolIdx);
  }

  lemma LiveAccounted(t: Turn, fd: FrameData, k: Tick)
    requires k.fps <= 1000000
    ensures Adds(Live(t, fd, k), t, fd.poolIdx)
  {
    var r := Live(t, fd, k);
    var t1 := StartStreaming(t, k.streaming, k.fps);
    StartAccounted(t, k.streaming, k.fps);
    if !k.streaming || fd.tex == 0 {
      assert r == Skip(t1, fd);
    } else {
      var t3 := Seeded(t1, fd, k.fps);
      assert Accounted(t3, t1);
      PacedAccounted(t3, fd, k);
      assert r == Paced(t3, fd, k);
      Chain(r, t3, t1, fd.poolIdx);
    }
    Chain(r, t1, t, fd.poolIdx);
  }

  /** From t to r, every slot released or held before is still released or held. */
  predicate Accounted(r: Turn, t: Turn)
  {
    multiset(r.released) + Held(r.s) == multiset(t.released) + Held(t.s)
  }

  /** From t to r, the same, and the slot x has been released or is held as well. */
  predicate Adds(r: Turn, t: Turn, x: int)
  {
    multiset(r.released) + Held(r.s) == multiset(t.released) + Held(t.s) + multiset{x}
  }

  lemma Chain(r: Turn, m: Turn, t: Turn, x: int)
    requires Adds(r, m, x) && Accounted(m, t)
    ensures Adds(r, t, x)
  {
  }

  lemma ChainAfter(r: Turn, m: Turn, t: Turn, x: int)
    requires Accounted(r, m) && Adds(m, t, x)
    ensures Adds(r, t, x)
  {
  }

  lemma PacedAccounted(t: Turn, fd: FrameData, k: Tick)
    requires t.s.period > 0
    ensures Adds(Paced(t, fd, k), t, fd.poolIdx)
  {
    var r := Paced(t, fd, k);
    if k.needsKey {
      KeyAccounted(t, fd, k);
      assert r == KeyPath(t, fd, k);
    } else if fd.ts - t.s.nextTs < -(t.s.period * 3 / 2) {
      assert r == Discard(t, fd);
    } else {
      var h := Hold(t, fd, k.curGen);
      HoldAccounted(t, fd, k.curGen);
      EmitAccounted(h, k);
      assert r == Emit(h, k);
      ChainAfter(r, h, t, fd.poolIdx);
    }
  }

  lemma DropAccounted(t: Turn)
    ensures Accounted(Drop(t), t)
  {
  }

  lemma StartAccounted(t: Turn, streaming: bool, fps: int)
    requires fps <= 1000000
    ensures Accounted(StartStreaming(t, streaming, fps), t)
  {
    if streaming && !t.s.wasStr {
      DropAccounted(t.(s := t.s.(period := Period(fps), lastEncTs := 0, nextTs := 0)));
    }
  }

  lemma KeyAccounted(t: Turn, fd: FrameData, k: Tick)
    ensures Adds(KeyPath(t, fd, k), t, fd.poolIdx)
  {
    DropAccounted(t);
  }

  lemma HoldAccounted(t: Turn, fd: FrameData, curGen: nat)
    ensures Adds(Hold(t, fd, curGen), t, fd.poolIdx)
  {
    var u := if t.s.hasPf && t.s.pf.generation != curGen then Drop(t) else t;
    DropAccounted(t);
    assert Accounted(u, t);
    var r := Hold(t, fd, curGen);
    if !u.s.hasPf {
      assert r.released == u.released && Held(r.s) == multiset{fd.poolIdx};
    } else if Abs(fd.ts - u.s.nextTs) < Abs(u.s.pf.ts - u.s.nextTs) {
      assert r.released == u.released + [u.s.pf.poolIdx];
      assert Held(r.s) == multiset{fd.poolIdx} && Held(u.s) == multiset{u.s.pf.poolIdx};
    } else {
      assert r.released == u.released + [fd.poolIdx] && Held(r.s) == Held(u.s);
    }
  }

  lemma EmitAccounted(t: Turn, k: Tick)
    requires t.s.period > 0
    ensures Accounted(Emit(t, k), t)
  {
    var r := Emit(t, k);
    var s := t.s;
    DropAccounted(t);
    var u := Drop(t);
    if !Due(s, k.now) {
      assert r == t;
    } else if s.pf.generation != k.emitGen {
      assert r == u;
    } else if k.now - s.pf.ts > s.period * 2 || (s.pf.needsSync && !k.synced) {
      assert r.released == u.released && Held(r.s) == Held(u.s);
    } else {
      var c := t.(s := Count(s, s.pf, k.encoding));
      DropAccounted(c);
      assert Held(c.s) == Held(s);
      assert r.released == Drop(c).released && Held(r.s) == Held(Drop(c).s);
    }
  }

  /**
   * A frame of a stale generation is released and counted as dropped; a
   * generation change also releases the held frame. Neither encodes
   * anything.
   */
  lemma StaleFrameDropped(s: Pace, fd: FrameData, k: Tick)
    requires k.fps <= 1000000 && fd.generation != k.curGen
    ensures var r := Step(s, fd, k);
      r.submitted == None && r.s.dropped == s.dropped + 1 && !r.s.hasPf == (k.curGen != s.lastGen || !s.hasPf) &&
      r.released == (if k.curGen != s.lastGen && s.hasPf then [s.pf.poolIdx] else []) + [fd.poolIdx] &&
      r.s.lastGen == k.curGen
  {
  }

  /**
   * On the ordinary path a frame more than one and a half periods earlier
   * than the due time is dropped; otherwise it is held if it is strictly
   * closer to the due time than the frame held before.
   */
  lemma EarlyFrameDropped(s: Pace, fd: FrameData, k: Tick)
    requires k.fps <= 1000000 && fd.generation == k.curGen && k.streaming && fd.tex != 0 && !k.needsKey
    requires k.curGen == s.lastGen && (s.wasStr || !k.streaming) && s.nextTs != 0
    requires fd.ts - s.nextTs < -(Period(k.fps) * 3 / 2)
    ensures var r := Step(s, fd, k);
      r.submitted == None && r.s.dropped == s.dropped + 1 && r.released == [fd.poolIdx] &&
      r.s.hasPf == s.hasPf && r.s.nextTs == s.nextTs
  {
  }

  /** The candidate rule: the new frame replaces the held one only when strictly closer to nextTs. */
  lemma HoldCloser(t: Turn, fd: FrameData, curGen: nat)
    requires t.s.hasPf && t.s.pf.generation == curGen
    ensures var r := Hold(t, fd, curGen);
      r.s.hasPf &&
      (r.s.pf == fd <==> Abs(fd.ts - t.s.nextTs) < Abs(t.s.pf.ts - t.s.nextTs) || t.s.pf == fd) &&
      (r.s.pf != fd ==> r.s.pf == t.s.pf && r.released == t.released + [fd.poolIdx])
  {
  }

  /**
   * A frame handed to the encoder on the ordinary path was due, of the
   * current generation, and no more than two periods old; afterwards the
   * due time advances by one period, or snaps to now when it lags more
   * than two periods behind.
   */
  lemma EmitRule(t: Turn, k: Tick)
    requires t.s.period > 0 && t.submitted == None
    ensures var r := Emit(t, k);
      r.submitted.Some? ==>
        Due(t.s, k.now) && t.s.pf.generation == k.emitGen && k.now - t.s.pf.ts <= t.s.period * 2 &&
        r.submitted == Some(Submit(t.s.pf, false)) && !r.s.hasPf &&
        r.s.nextTs == (if t.s.nextTs + t.s.period < k.now - t.s.period * 2 then k.now else t.s.nextTs + t.s.period)
    ensures !Due(t.s, k.now) ==> Emit(t, k) == t
  {
  }

  /** A stale held frame is dropped and the due time catches up by whole periods. */
  lemma StaleHeldCatchesUp(t: Turn, k: Tick)
    requires t.s.period > 0 && t.submitted == None && Due(t.s, k.now) && t.s.pf.generation == k.emitGen
    requires k.now - t.s.pf.ts > t.s.period * 2
    ensures var r := Emit(t, k);
      r.submitted == None && !r.s.hasPf && r.s.dropped == t.s.dropped + 1 &&
      r.s.nextTs >= k.now - t.s.period && (r.s.nextTs - t.s.nextTs) % t.s.period == 0
  {
    CatchUpLands(t.s.nextTs, k.now, t.s.period);
  }

  /** A keyframe that was sent sets the next due time one period after it. */
  lemma KeyframePaces(s: Pace, fd: FrameData, k: Tick)
    requires k.fps <= 1000000 && fd.generation == k.curGen && k.streaming && fd.tex != 0 && k.needsKey
    requires !(fd.needsSync && !k.synced)
    ensures var r := Step(s, fd, k);
      !r.s.hasPf && r.s.period == Period(k.fps) &&
      (k.encoding == Sent ==> r.s.nextTs == fd.ts + Period(k.fps) && r.s.encoded == s.encoded + 1) &&
      r.submitted == (if k.encoding == Skipped then None else Some(Submit(fd, true)))
  {
  }

  // ---------------------------------------------------------------------
  // The loop, as the thread runs it
  // ---------------------------------------------------------------------

  /** `while (nextTs < now - period) nextTs += period`. */
  method CatchUpLoop(nextTs: int, now: int, period: int) returns (r: int)
    requires period > 0
    ensures r == CatchUp(nextTs, now, period)
  {
    r := nextTs;
    ghost var n := 0;
    while r < now - period
      invariant r == nextTs + n * period && 0 <= n
      invariant nextTs < now - period ==> n * period < now - period - nextTs + period
      invariant nextTs >= now - period ==> n == 0
      decreases now - period - r
    {
      r := r + period;
      n := n + 1;
    }
    CatchUpCount(nextTs, now, period, n);
  }

  /** The loop's number of steps is the one the closed form computes. */
  lemma CatchUpCount(nextTs: int, now: int, period: int, n: int)
    requires period > 0 && 0 <= n
    requires nextTs + n * period >= now - period
    requires nextTs < now - period ==> n * period < now - period - nextTs + period
    requires nextTs >= now - period ==> n == 0
    ensures nextTs + n * period == CatchUp(nextTs, now, period)
  {
    if nextTs < now - period {
      var gap := now - period - nextTs;
      assert (n - 1) * period == n * period - period;
      DivIs(gap + period - 1, n, gap + period - 1 - n * period, period);
    }
  }

  /** The encoder thread's loop state, one turn at a time. */
  class EncoderLoop {
    var hasPf: bool
    var pf: FrameData
    var nextTs: int
    var period: int
    var lastGen: nat
    var wasStr: bool
    var framesEncoded: nat
    var framesDropped: nat
    var encodeErrors: nat
    var lastEncTs: int

    function View(): Pace
      reads this
    {
      Pace(hasPf, pf, nextTs, period, lastGen, wasStr, framesEncoded, framesDropped, encodeErrors, lastEncTs)
    }

    /** The locals as the thread starts: nothing held, period 16667 µs, the ring's generation. */
    constructor(gen: nat)
      ensures View() == Start(gen)
    {
      hasPf := false;
      pf := EMPTY_FRAME;
      nextTs := 0;
      period := INITIAL_PERIOD;
      lastGen := gen;
      wasStr := false;
      framesEncoded := 0;
      framesDropped := 0;
      encodeErrors := 0;
      lastEncTs := 0;
    }

    /** `MarkReleased(pf.poolIdx); pf.Release(); hasPf = false`, when a frame is held. */
    method DropHeld(rel: seq<int>) returns (rel': seq<int>)
      modifies this
      ensures Turn(View(), rel', None) == Drop(Turn(old(View()), rel, None))
    {
      rel' := rel;
      if hasPf {
        rel' := rel' + [pf.poolIdx];
        hasPf := false;
      }
    }

    /** The start of a turn: a generation change, then the streaming edge. */
    method Prepare(k: Tick) returns (rel: seq<int>)
      requires k.fps <= 1000000
      modifies this
      ensures Turn(View(), rel, None) == StartStreaming(Regen(old(View()), k.curGen), k.streaming, k.fps)
    {
      rel := [];
      if k.curGen != lastGen {
        rel := DropHeld(rel);
        lastGen := k.curGen;
        nextTs := 0;
      }
      if k.streaming && !wasStr {
        period := Period(k.fps);
        lastEncTs := 0;
        nextTs := 0;
        rel := DropHeld(rel);
      }
      wasStr := k.streaming;
    }

    /** The keyframe path of a turn. */
    method EncodeKey(fd: FrameData, k: Tick, rel0: seq<int>) returns (rel: seq<int>, sub: Option<Submit>)
      modifies this
      ensures Turn(View(), rel, sub) == KeyPath(Turn(old(View()), rel0, None), fd, k)
    {
      rel := DropHeld(rel0);
      if fd.needsSync && !k.synced {
        framesDropped := framesDropped + 1;
        return rel + [fd.poolIdx], None;
      }
      sub := Handed(fd, true, k.encoding);
      match k.encoding {
        case Sent =>
          lastEncTs := fd.ts;
          nextTs := fd.ts + period;
          framesEncoded := framesEncoded + 1;
        case Threw =>
          encodeErrors := encodeErrors + 1;
        case _ =>
      }
      rel := rel + [fd.poolIdx];
    }

    /** Choosing the held candidate. */
    method Candidate(fd: FrameData, curGen: nat, rel0: seq<int>) returns (rel: seq<int>)
      modifies this
      ensures Turn(View(), rel, None) == Hold(Turn(old(View()), rel0, None), fd, curGen)
    {
      rel := rel0;
      if hasPf && pf.generation != curGen {
        rel := DropHeld(rel);
      }
      if !hasPf {
        pf := fd;
        hasPf := true;
      } else if Abs(fd.ts - nextTs) < Abs(pf.ts - nextTs) {
        rel := rel + [pf.poolIdx];
        pf := fd;
      } else {
        rel := rel + [fd.poolIdx];
      }
    }

    /** Emitting the held frame once it is due. */
    method EmitHeld(k: Tick, rel0: seq<int>) returns (rel: seq<int>, sub: Option<Submit>)
      requires period > 0
      modifies this
      ensures Turn(View(), rel, sub) == Emit(Turn(old(View()), rel0, None), k)
    {
      rel, sub := rel0, None;
      if !(hasPf && (pf.ts >= nextTs || k.now >= nextTs + period / 2)) {
        return;
      }
      if pf.generation != k.emitGen {
        rel := DropHeld(rel);
      } else if k.now - pf.ts > period * 2 {
        rel := DropStale(k.now, rel);
      } else if pf.needsSync && !k.synced {
        rel := DropHeld(rel);
        framesDropped := framesDropped + 1;
      } else {
        rel, sub := EncodeHeld(k, rel);
      }
    }

    /** The stale held frame goes and the due time catches up. */
    method DropStale(now: int, rel0: seq<int>) returns (rel: seq<int>)
      requires period > 0
      modifies this
      ensures Turn(View(), rel, None) == Stale(Turn(old(View()), rel0, None), now)
    {
      var next := CatchUpLoop(nextTs, now, period);
      rel := DropHeld(rel0);
      framesDropped := framesDropped + 1;
      nextTs := next;
    }

    /** The held frame is encoded and released, and the due time advances. */
    method EncodeHeld(k: Tick, rel0: seq<int>) returns (rel: seq<int>, sub: Option<Submit>)
      modifies this
      ensures Turn(View(), rel, sub) == Encoded(Turn(old(View()), rel0, None), k)
    {
      sub := Handed(pf, false, k.encoding);
      match k.encoding {
        case Sent =>
          lastEncTs := pf.ts;
          framesEncoded := framesEncoded + 1;
        case Threw =>
          encodeErrors := encodeErrors + 1;
        case _ =>
      }
      rel := DropHeld(rel0);
      nextTs := nextTs + period;
      if nextTs < k.now - period * 2 {
        nextTs := k.now;
      }
    }

    /** One turn of the loop with the popped frame fd: the slots released and the frame encoded. */
    method Iterate(fd: FrameData, k: Tick) returns (released: seq<int>, submitted: Option<Submit>)
      requires k.fps <= 1000000
      modifies this
      ensures Turn(View(), released, submitted) == Step(old(View()), fd, k)
    {
      submitted := None;
      if fd.generation != k.curGen {
        released := [];
        if k.curGen != lastGen {
          released := DropHeld(released);
          lastGen := k.curGen;
          nextTs := 0;
        }
        framesDropped := framesDropped + 1;
        released := released + [fd.poolIdx];
        return;
      }
      released := Prepare(k);
      if !k.streaming || fd.tex == 0 {
        released := released + [fd.poolIdx];
        return;
      }
      period := Period(k.fps);
      if nextTs == 0 {
        nextTs := fd.ts;
      }
      if k.needsKey {
        released, submitted := EncodeKey(fd, k, released);
        return;
      }
      if fd.ts - nextTs < -(period * 3 / 2) {
        framesDropped := framesDropped + 1;
        released := released + [fd.poolIdx];
        return;
      }
      released := Candidate(fd, k.curGen, released);
      released, submitted := EmitHeld(k, released);
    }
  }

  // ---------------------------------------------------------------------
  // WiggleManager
  // ---------------------------------------------------------------------

  /** The time a wiggle has to wait after its request, in milliseconds. */
  const WIGGLE_DELAY_MS: int := 100

  /** `WiggleManager`: the time of the pending request, 0 for none. */
  class WiggleManager {
    var lastReq: int

    constructor()
      ensures lastReq == 0
    {
      lastReq := 0;
    }

    /** `Request`: a wiggle is wanted from now on (a later request restarts the wait). */
    method Request(nowMs: int)
      modifies this
      ensures lastReq == nowMs
    {
      lastReq := nowMs;
    }

    /**
     * One wake-up of the thread: the wiggle fires iff a request is pending
     * and at least WIGGLE_DELAY_MS have passed since it; firing clears the
     * request, so it fires once per request.
     */
    method Poll(nowMs: int) returns (fire: bool)
      modifies this
      ensures fire <==> old(lastReq) > 0 && nowMs - old(lastReq) >= WIGGLE_DELAY_MS
      ensures lastReq == if fire then 0 else old(lastReq)
    {
      fire := false;
      var req := lastReq;
      if req > 0 && nowMs - req >= WIGGLE_DELAY_MS {
        lastReq := 0;
        fire := true;
      }
    }
  }
}
