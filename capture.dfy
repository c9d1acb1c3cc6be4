/**
 * The capture side of the server (src/capture.cpp): the 4-entry
 * `FrameSlot` ring that hands captured textures to the encoder thread,
 * with its bitmask of texture-pool slots still in flight, and the parts of
 * `ScreenCapture` that choose a pool texture and accept a new frame rate
 * or monitor.
 *
 * Textures are opaque handles (0 is the null pointer); fences are the GPU
 * fence values recorded with each frame, and whether a fence has completed
 * is a parameter.
 */
module Capture {
  import opened Bytes

  /** `FrameSlot::N`: entries in the ring. */
  const SLOTS: nat := 4
  /** `ScreenCapture::POOL`: textures in the copy pool. */
  const POOL: nat := 6
  /** The width of the `uint32_t` in-flight mask: `1u << i` is only defined below it. */
  const MASK_BITS: nat := 32

  /**
   * The in-flight mask, as the set of its set bits: bit i is set iff
   * pool slot i is in this set.
   */
  type Mask = set<int>

  /** A texture handle; 0 is the null pointer. */
  type Texture = nat

  /** `FrameData`: a captured texture, its timestamp and fence, its pool slot (-1 for none) and capture generation. */
  datatype FrameData = FrameData(tex: Texture, ts: int, fence: nat, poolIdx: int, needsSync: bool, generation: nat)

  /** A value-initialised `FrameData{}`. */
  const EMPTY_FRAME: FrameData := FrameData(0, 0, 0, -1, false, 0)

  /** `FrameData::Release`: the texture reference is dropped; timestamp and fence stay as they were. */
  function Released(f: FrameData): (r: FrameData)
    ensures r.tex == 0 && r.poolIdx == -1 && !r.needsSync && r.generation == 0
    ensures r.ts == f.ts && r.fence == f.fence
  {
    f.(tex := 0, poolIdx := -1, needsSync := false, generation := 0)
  }

  // ---------------------------------------------------------------------
  // The ring's contents as values
  // ---------------------------------------------------------------------

  /** The cnt queued frames, oldest first, starting at slot tail. */
  function QueueOf(fr: seq<FrameData>, tail: int, cnt: int): (q: seq<FrameData>)
    requires |fr| == SLOTS && 0 <= tail < SLOTS && 0 <= cnt <= SLOTS
    ensures |q| == cnt
  {
    seq(cnt, k requires 0 <= k < cnt => fr[(tail + k) % SLOTS])
  }

  /** `Push` on the queue: a full ring drops its oldest frame first. */
  function PushQueue(q: seq<FrameData>, f: FrameData): (r: seq<FrameData>)
  {
    (if |q| >= SLOTS then q[1..] else q) + [f]
  }

  /** `Push` on the mask: the dropped frame's slot is cleared, then the new frame's slot set. */
  function PushMask(m: Mask, q: seq<FrameData>, idx: int): (r: Mask)
  {
    var kept := if |q| >= SLOTS && q[0].poolIdx >= 0 then m - {q[0].poolIdx} else m;
    if idx >= 0 then kept + {idx} else kept
  }

  /** A push stores the frame at head, over the dropped oldest frame when the ring is full. */
  lemma PushedQueue(fr: seq<FrameData>, tail: int, cnt: int, f: FrameData)
    requires |fr| == SLOTS && 0 <= tail < SLOTS && 0 <= cnt <= SLOTS
    ensures var head := (tail + cnt) % SLOTS;
      var tail' := if cnt >= SLOTS then (tail + 1) % SLOTS else tail;
      var cnt' := if cnt >= SLOTS then cnt else cnt + 1;
      QueueOf(fr[head := f], tail', cnt') == PushQueue(QueueOf(fr, tail, cnt), f)
  {
    if cnt >= SLOTS {
      PushedFull(fr, tail, f);
    } else {
      PushedRoom(fr, tail, cnt, f);
    }
  }

  lemma PushedRoom(fr: seq<FrameData>, tail: int, cnt: int, f: FrameData)
    requires |fr| == SLOTS && 0 <= tail < SLOTS && 0 <= cnt < SLOTS
    ensures QueueOf(fr[(tail + cnt) % SLOTS := f], tail, cnt + 1) == QueueOf(fr, tail, cnt) + [f]
  {
    var r := QueueOf(fr[(tail + cnt) % SLOTS := f], tail, cnt + 1);
    var q := QueueOf(fr, tail, cnt);
    forall k | 0 <= k < cnt
      ensures r[k] == q[k]
    {
      assert (tail + k) % SLOTS != (tail + cnt) % SLOTS;
    }
  }

  lemma PushedFull(fr: seq<FrameData>, tail: int, f: FrameData)
    requires |fr| == SLOTS && 0 <= tail < SLOTS
    ensures QueueOf(fr[tail := f], (tail + 1) % SLOTS, SLOTS) == QueueOf(fr, tail, SLOTS)[1..] + [f]
  {
    var r := QueueOf(fr[tail := f], (tail + 1) % SLOTS, SLOTS);
    var q := QueueOf(fr, tail, SLOTS);
    forall k | 0 <= k < SLOTS - 1
      ensures r[k] == q[k + 1]
    {
      assert ((tail + 1) % SLOTS + k) % SLOTS == (tail + k + 1) % SLOTS != tail;
    }
    assert ((tail + 1) % SLOTS + SLOTS - 1) % SLOTS == tail;
  }

  /** Writing a slot twice keeps the second value. */
  lemma Overwrite(s: seq<FrameData>, i: int, a: FrameData, b: FrameData)
    requires 0 <= i < |s|
    ensures s[i := a][i := b] == s[i := b]
  {
  }

  /** A pop takes the frame at tail and empties its slot. */
  lemma PoppedQueue(fr: seq<FrameData>, tail: int, cnt: int)
    requires |fr| == SLOTS && 0 <= tail < SLOTS && 0 < cnt <= SLOTS
    ensures QueueOf(fr[tail := EMPTY_FRAME], (tail + 1) % SLOTS, cnt - 1) == QueueOf(fr, tail, cnt)[1..]
  {
    var r := QueueOf(fr[tail := EMPTY_FRAME], (tail + 1) % SLOTS, cnt - 1);
    forall k | 0 <= k < cnt - 1
      ensures r[k] == QueueOf(fr, tail, cnt)[k + 1]
    {
      assert ((tail + 1) % SLOTS + k) % SLOTS == (tail + k + 1) % SLOTS;
    }
  }

  /** The newest n elements of s. */
  function Latest(s: seq<FrameData>, n: nat): (r: seq<FrameData>)
  {
    if |s| <= n then s else s[|s| - n..]
  }

  /** Pushing a sequence of frames, one after another. */
  function PushAll(q: seq<FrameData>, fs: seq<FrameData>): (r: seq<FrameData>)
    decreases |fs|
  {
    if fs == [] then q else PushAll(PushQueue(q, fs[0]), fs[1..])
  }

  /**
   * The ring always holds the newest SLOTS frames pushed into it, oldest
   * first: pushing fs onto a queue q keeps the last min(SLOTS, |q| + |fs|)
   * of q + fs.
   */
  lemma {:induction false} PushKeepsNewest(q: seq<FrameData>, fs: seq<FrameData>)
    requires |q| <= SLOTS
    ensures PushAll(q, fs) == Latest(q + fs, SLOTS)
    decreases |fs|
  {
    if fs != [] {
      var q1 := PushQueue(q, fs[0]);
      assert q1 == Latest(q + [fs[0]], SLOTS);
      PushKeepsNewest(q1, fs[1..]);
      LatestAppend(q + [fs[0]], fs[1..]);
      assert q + [fs[0]] + fs[1..] == q + fs;
    }
  }

  /** Trimming to the newest SLOTS before appending does not change the newest SLOTS after. */
  lemma LatestAppend(a: seq<FrameData>, b: seq<FrameData>)
    ensures Latest(Latest(a, SLOTS) + b, SLOTS) == Latest(a + b, SLOTS)
  {
    if |a| > SLOTS {
      var t := a[|a| - SLOTS..];
      assert (a + b)[|a + b| - SLOTS..] == (t + b)[|t + b| - SLOTS..] || |t + b| <= SLOTS;
    }
  }

  // ---------------------------------------------------------------------
  // FrameSlot
  // ---------------------------------------------------------------------

  /** `FrameSlot`: a ring of SLOTS frames between the capture callback and the encoder thread. */
  class FrameSlot {
    const fr: array<FrameData>
    var head: int
    var tail: int
    var cnt: int
    var inFlight: Mask
    var curGen: nat

    /** head is cnt slots after tail, and every stored pool index fits the mask. */
    ghost predicate Valid()
      reads this, fr
    {
      fr.Length == SLOTS && 0 <= tail < SLOTS && 0 <= cnt <= SLOTS &&
      head == (tail + cnt) % SLOTS &&
      (forall i :: 0 <= i < SLOTS ==> fr[i].poolIdx < MASK_BITS) &&
      forall i :: i in inFlight ==> 0 <= i < MASK_BITS
    }

    /** The queued frames, oldest first. */
    ghost function Queue(): (q: seq<FrameData>)
      requires Valid()
      reads this, fr
      ensures |q| == cnt && forall k :: 0 <= k < |q| ==> q[k].poolIdx < MASK_BITS
    {
      QueueOf(fr[..], tail, cnt)
    }

    constructor()
      ensures Valid() && fresh(fr) && Queue() == [] && inFlight == {} && curGen == 0
    {
      fr := new FrameData[SLOTS](_ => EMPTY_FRAME);
      head := 0;
      tail := 0;
      cnt := 0;
      inFlight := {};
      curGen := 0;
    }

    /** `SetGeneration`. */
    method SetGeneration(g: nat)
      modifies this
      ensures curGen == g && head == old(head) && tail == old(tail) && cnt == old(cnt) && inFlight == old(inFlight)
    {
      curGen := g;
    }

    /**
     * `Push`: a null texture is refused; otherwise a full ring first drops
     * its oldest frame (clearing its in-flight bit), then the frame is
     * stored at head, tagged with the current generation, and its pool
     * slot is marked in flight.
     */
    method Push(tex: Texture, ts: int, fence: nat, sync: bool, idx: int)
      requires Valid() && idx < MASK_BITS
      modifies this, fr
      ensures Valid() && curGen == old(curGen)
      ensures tex == 0 ==> Queue() == old(Queue()) && inFlight == old(inFlight) && fr[..] == old(fr[..])
      ensures tex != 0 ==>
        Queue() == PushQueue(old(Queue()), FrameData(tex, ts, fence, idx, sync, old(curGen))) &&
        inFlight == PushMask(old(inFlight), old(Queue()), idx) &&
        fr[..] == old(fr[..])[old(head) := FrameData(tex, ts, fence, idx, sync, old(curGen))]
    {
      if tex == 0 {
        return;
      }
      ghost var f0 := fr[..];
      ghost var q0 := Queue();
      ghost var m0 := inFlight;
      var f := FrameData(tex, ts, fence, idx, sync, curGen);
      if cnt >= SLOTS {
        assert q0[0] == f0[tail];
        DropOldest();
        Overwrite(f0, old(head), Released(f0[old(tail)]), f);
      }
      ghost var m1 := inFlight;
      assert m1 == if |q0| >= SLOTS && q0[0].poolIdx >= 0 then m0 - {q0[0].poolIdx} else m0;
      Store(f);
      PushedQueue(f0, old(tail), old(cnt), f);
      assert fr[..] == f0[old(head) := f];
      assert Queue() == QueueOf(f0[old(head) := f], tail, cnt);
    }

    /** The first half of `Push` on a full ring: the oldest frame is released and its slot leaves flight. */
    method DropOldest()
      requires Valid() && cnt == SLOTS
      modifies this, fr
      ensures Valid() && head == old(head) && curGen == old(curGen)
      ensures tail == (old(tail) + 1) % SLOTS && cnt == SLOTS - 1
      ensures fr[..] == old(fr[..])[old(tail) := Released(old(fr[tail]))]
      ensures inFlight == if old(fr[tail].poolIdx) >= 0 then old(inFlight) - {old(fr[tail].poolIdx)} else old(inFlight)
    {
      if fr[tail].poolIdx >= 0 {
        inFlight := inFlight - {fr[tail].poolIdx};
      }
      fr[tail] := Released(fr[tail]);
      tail := (tail + 1) % SLOTS;
      cnt := cnt - 1;
    }

    /** The second half of `Push`: the frame goes in at head and its slot is marked in flight. */
    method Store(f: FrameData)
      requires Valid() && cnt < SLOTS && f.poolIdx < MASK_BITS
      modifies this, fr
      ensures Valid() && tail == old(tail) && cnt == old(cnt) + 1 && curGen == old(curGen)
      ensures fr[..] == old(fr[..])[old(head) := f]
      ensures inFlight == if f.poolIdx >= 0 then old(inFlight) + {f.poolIdx} else old(inFlight)
    {
      fr[head] := f;
      if f.poolIdx >= 0 {
        inFlight := inFlight + {f.poolIdx};
      }
      head := (head + 1) % SLOTS;
      cnt := cnt + 1;
    }

    /**
     * `Pop`: nothing from an empty ring; otherwise the oldest frame, whose
     * slot is reset to an empty frame. The in-flight mask is left to
     * `MarkReleased`.
     */
    method Pop() returns (r: Option<FrameData>)
      requires Valid()
      modifies this, fr
      ensures Valid() && inFlight == old(inFlight) && curGen == old(curGen)
      ensures old(cnt) == 0 ==> r == None && Queue() == old(Queue()) && fr[..] == old(fr[..])
      ensures old(cnt) > 0 ==>
        r == Some(old(Queue())[0]) && Queue() == old(Queue())[1..] &&
        fr[..] == old(fr[..])[old(tail) := EMPTY_FRAME]
    {
      if cnt == 0 {
        return None;
      }
      PoppedQueue(fr[..], tail, cnt);
      var out := fr[tail];
      fr[tail] := EMPTY_FRAME;
      tail := (tail + 1) % SLOTS;
      cnt := cnt - 1;
      return Some(out);
    }

    /** `MarkReleased`: a negative index is ignored; otherwise exactly that slot leaves flight. */
    method MarkReleased(i: int)
      requires i < MASK_BITS
      modifies this
      ensures head == old(head) && tail == old(tail) && cnt == old(cnt) && curGen == old(curGen)
      ensures inFlight == if i < 0 then old(inFlight) else old(inFlight) - {i}
    {
      if i < 0 {
        return;
      }
      inFlight := inFlight - {i};
    }

    /** `IsInFlight`: false for a negative index. */
    method IsInFlight(i: int) returns (r: bool)
      requires i < MASK_BITS
      ensures r <==> 0 <= i && i in inFlight
    {
      if i < 0 {
        return false;
      }
      r := i in inFlight;
    }

    /** `Reset`: every entry released, the ring empty and no slot in flight. */
    method Reset()
      requires Valid()
      modifies this, fr
      ensures Valid() && Queue() == [] && curGen == old(curGen)
      ensures inFlight == {}
      ensures forall i :: 0 <= i < SLOTS ==> fr[i] == Released(old(fr[i]))
    {
      for i := 0 to SLOTS
        invariant forall k :: 0 <= k < i ==> fr[k] == Released(old(fr[k]))
        invariant forall k :: i <= k < SLOTS ==> fr[k] == old(fr[k])
        invariant curGen == old(curGen)
      {
        fr[i] := Released(fr[i]);
      }
      head := 0;
      tail := 0;
      cnt := 0;
      inFlight := {};
    }
  }

  // ---------------------------------------------------------------------
  // Choosing a pool texture
  // ---------------------------------------------------------------------

  /** The pool slot k steps after start, round-robin: `(texIdx + i) % POOL`. */
  function At(start: int, k: int): (r: int)
    ensures 0 <= r < POOL
  {
    (start + k) % POOL
  }

  /** Whether pool slot idx may take the next frame: not in flight and, on the first pass, its fence complete. */
  predicate Fits(m: Mask, complete: seq<bool>, needComplete: bool, idx: int)
    requires |complete| == POOL && 0 <= idx < POOL
  {
    idx !in m && (!needComplete || complete[idx])
  }

  /** The first slot that fits, scanning round-robin from step i; -1 if none does. */
  function FirstFit(start: int, m: Mask, complete: seq<bool>, needComplete: bool, i: nat): (r: int)
    requires |complete| == POOL && i <= POOL
    decreases POOL - i
  {
    if i == POOL then -1
    else if Fits(m, complete, needComplete, At(start, i)) then At(start, i)
    else FirstFit(start, m, complete, needComplete, i + 1)
  }

  /** `FindTex`: a free slot whose fence is complete, else any free slot, else -1. */
  function ChooseTex(start: int, m: Mask, complete: seq<bool>): int
    requires |complete| == POOL
  {
    var ready := FirstFit(start, m, complete, true, 0);
    if ready >= 0 then ready else FirstFit(start, m, complete, false, 0)
  }

  /**
   * The scan from step i returns -1 exactly when no slot from there on
   * fits; otherwise the slot at the first step that fits.
   */
  lemma {:induction false} FirstFitFinds(start: int, m: Mask, complete: seq<bool>, needComplete: bool, i: nat)
    requires |complete| == POOL && i <= POOL
    ensures var r := FirstFit(start, m, complete, needComplete, i);
      (r == -1 <==> forall k :: i <= k < POOL ==> !Fits(m, complete, needComplete, At(start, k))) &&
      (r != -1 ==> exists k :: i <= k < POOL && r == At(start, k) && Fits(m, complete, needComplete, At(start, k)) &&
                     forall k' :: i <= k' < k ==> !Fits(m, complete, needComplete, At(start, k')))
    decreases POOL - i
  {
    if i < POOL {
      FirstFitFinds(start, m, complete, needComplete, i + 1);
      if !Fits(m, complete, needComplete, At(start, i)) {
        var r := FirstFit(start, m, complete, needComplete, i + 1);
        if r != -1 {
          var k :| i + 1 <= k < POOL && r == At(start, k) && Fits(m, complete, needComplete, At(start, k)) &&
                   forall k' :: i + 1 <= k' < k ==> !Fits(m, complete, needComplete, At(start, k'));
          assert forall k' :: i <= k' < k ==> !Fits(m, complete, needComplete, At(start, k'));
        }
      }
    }
  }

  /** Every pool slot is reached by the round-robin scan from a non-negative start. */
  lemma Reached(start: int, idx: int) returns (k: nat)
    requires start >= 0 && 0 <= idx < POOL
    ensures k < POOL && At(start, k) == idx
  {
    k := (idx - start % POOL + POOL) % POOL;
  }

  /**
   * What `FindTex` promises: -1 exactly when every pool slot is in flight;
   * otherwise a slot not in flight, and one whose fence is complete
   * whenever such a free slot exists.
   */
  lemma ChooseTexSound(start: int, m: Mask, complete: seq<bool>)
    requires |complete| == POOL && start >= 0
    ensures var r := ChooseTex(start, m, complete);
      (r == -1 <==> forall idx :: 0 <= idx < POOL ==> idx in m) &&
      (r != -1 ==> 0 <= r < POOL && r !in m) &&
      ((exists idx :: 0 <= idx < POOL && idx !in m && complete[idx]) ==> r != -1 && complete[r])
  {
    FirstFitFinds(start, m, complete, true, 0);
    FirstFitFinds(start, m, complete, false, 0);
    if exists idx :: 0 <= idx < POOL && idx !in m && complete[idx] {
      var idx :| 0 <= idx < POOL && idx !in m && complete[idx];
      var k := Reached(start, idx);
      assert Fits(m, complete, true, At(start, k));
    }
    if exists idx :: 0 <= idx < POOL && idx !in m {
      var idx :| 0 <= idx < POOL && idx !in m;
      var k := Reached(start, idx);
      assert Fits(m, complete, false, At(start, k));
    }
  }

  /**
   * The refresh rate `InitMon` takes as the host rate: the monitor's
   * display frequency when the settings query succeeds (refresh is
   * Some), otherwise 60 Hz.
   */
  function HostRate(refresh: Option<nat>): (r: nat)
    ensures refresh.None? ==> r == 60
    ensures refresh.Some? ==> r == refresh.value
  {
    match refresh
    case None => 60
    case Some(hz) => hz
  }

  /**
   * The parts of `ScreenCapture` that pick a pool texture, accept a new
   * rate or monitor, and (re)initialise capture of a monitor.
   */
  class ScreenCapture {
    const slot: FrameSlot
    var texIdx: int
    var hostFps: nat
    var targetFps: int
    var monIdx: int
    var captureGen: nat
    var capturing: bool
    var started: bool

    ghost predicate Valid()
      reads this, slot, slot.fr
    {
      slot.Valid() && 0 <= texIdx <= POOL
    }

    /**
     * The constructor on the primary monitor: the header's defaults
     * (60 fps, generation 0) are overwritten by `InitMon` without keepFps,
     * so the target rate is the primary monitor's rate and capture starts
     * in generation 1, not yet capturing. refresh is the display-settings
     * query for the primary monitor.
     */
    constructor(s: FrameSlot, refresh: Option<nat>)
      requires s.Valid()
      modifies s
      ensures Valid() && slot == s && texIdx == 0 && monIdx == 0
      ensures hostFps == HostRate(refresh) && targetFps == hostFps
      ensures captureGen == 1 && s.curGen == 1
      ensures !capturing && !started
      ensures s.Queue() == old(s.Queue()) && s.inFlight == old(s.inFlight)
    {
      slot := s;
      texIdx := 0;
      hostFps := 60;
      targetFps := 60;
      monIdx := 0;
      captureGen := 0;
      capturing := false;
      started := false;
      new;
      var ok := InitMon(refresh, false, true);
    }

    /**
     * `InitMon(mon, keepFps)`: the host rate is taken from the monitor
     * (60 when the query fails) and becomes the target unless keepFps;
     * then the capture item, texture pool and session are created
     * (created says whether that succeeds; otherwise the source throws and
     * nothing further happens); on success capture is marked not started
     * and a new generation is stamped on the ring.
     */
    method InitMon(refresh: Option<nat>, keepFps: bool, created: bool) returns (ok: bool)
      requires Valid()
      modifies this, slot
      ensures Valid() && ok == created
      ensures hostFps == HostRate(refresh)
      ensures targetFps == if keepFps then old(targetFps) else HostRate(refresh)
      ensures captureGen == old(captureGen) + (if created then 1 else 0)
      ensures slot.curGen == if created then captureGen else old(slot.curGen)
      ensures started == (if created then false else old(started))
      ensures slot.Queue() == old(slot.Queue()) && slot.inFlight == old(slot.inFlight)
      ensures texIdx == old(texIdx) && monIdx == old(monIdx) && capturing == old(capturing)
    {
      hostFps := HostRate(refresh);
      if !keepFps {
        targetFps := hostFps;
      }
      if !created {
        return false;
      }
      started := false;
      captureGen := captureGen + 1;
      slot.SetGeneration(captureGen);
      return true;
    }

    /** One pass of `FindTex`'s scan over the pool, from texIdx. */
    method Scan(complete: seq<bool>, needComplete: bool) returns (idx: int)
      requires Valid() && |complete| == POOL
      ensures idx == FirstFit(texIdx, slot.inFlight, complete, needComplete, 0)
    {
      for i := 0 to POOL
        invariant FirstFit(texIdx, slot.inFlight, complete, needComplete, 0) ==
                  FirstFit(texIdx, slot.inFlight, complete, needComplete, i)
      {
        var j := At(texIdx, i);
        var busy := slot.IsInFlight(j);
        if !busy && (!needComplete || complete[j]) {
          return j;
        }
      }
      return -1;
    }

    /**
     * `FindTex`: the chosen pool slot (see `ChooseTex`), after which the
     * scan resumes from the next slot; -1 leaves the position unchanged.
     * complete[i] stands for whether slot i's fence has completed.
     */
    method FindTex(complete: seq<bool>) returns (idx: int)
      requires Valid() && |complete| == POOL
      modifies this
      ensures Valid() && idx == ChooseTex(old(texIdx), slot.inFlight, complete)
      ensures texIdx == if idx >= 0 then idx + 1 else old(texIdx)
      ensures targetFps == old(targetFps) && monIdx == old(monIdx) && captureGen == old(captureGen)
      ensures hostFps == old(hostFps) && capturing == old(capturing) && started == old(started)
    {
      idx := Scan(complete, true);
      if idx < 0 {
        idx := Scan(complete, false);
      }
      if idx >= 0 {
        texIdx := idx + 1;
      }
    }

    /** `SetFPS`: only 1..240 is accepted. */
    method SetFPS(fps: int) returns (ok: bool)
      modifies this
      ensures ok <==> 1 <= fps <= 240
      ensures targetFps == if ok then fps else old(targetFps)
      ensures texIdx == old(texIdx) && monIdx == old(monIdx) && captureGen == old(captureGen)
      ensures hostFps == old(hostFps) && capturing == old(capturing) && started == old(started)
    {
      if fps < 1 || fps > 240 {
        return false;
      }
      targetFps := fps;
      return true;
    }

    /**
     * `SwitchMonitor(i)` with monitors entries in the monitor list:
     * an index out of range is refused; the monitor already captured
     * (sameHandle: its handle is the current one) is accepted with no
     * change. Otherwise capture is paused, the generation advances, the
     * ring is reset and the pool scan restarts at 0; then `InitMon` keeps
     * the target rate and, when the new monitor initialises (created),
     * advances the generation once more, the monitor index moves and
     * capture resumes if it was running. A failed switch leaves capture
     * paused on the old monitor index, one generation on.
     */
    method SwitchMonitor(i: int, monitors: nat, sameHandle: bool, refresh: Option<nat>, created: bool)
      returns (ok: bool)
      requires Valid()
      modifies this, slot, slot.fr
      ensures Valid()
      ensures i < 0 || i >= monitors ==>
                !ok && texIdx == old(texIdx) && monIdx == old(monIdx) && hostFps == old(hostFps) &&
                captureGen == old(captureGen) && slot.Queue() == old(slot.Queue()) &&
                capturing == old(capturing) && started == old(started)
      ensures 0 <= i < monitors && old(monIdx) == i && sameHandle ==>
                ok && texIdx == old(texIdx) && hostFps == old(hostFps) && captureGen == old(captureGen) &&
                slot.Queue() == old(slot.Queue()) && capturing == old(capturing) && started == old(started)
      ensures 0 <= i < monitors && !(old(monIdx) == i && sameHandle) ==>
                ok == created && captureGen == old(captureGen) + (if created then 2 else 1) &&
                slot.curGen == captureGen && slot.Queue() == [] && slot.inFlight == {} && texIdx == 0 &&
                monIdx == (if created then i else old(monIdx)) && hostFps == HostRate(refresh) &&
                capturing == (created && old(capturing)) &&
                started == (if created then old(capturing) else old(started))
      ensures targetFps == old(targetFps)
    {
      if i < 0 || i >= monitors {
        return false;
      }
      if monIdx == i && sameHandle {
        return true;
      }
      var was := capturing;
      capturing := false;
      captureGen := captureGen + 1;
      slot.SetGeneration(captureGen);
      slot.Reset();
      texIdx := 0;
      ok := InitMon(refresh, true, created);
      if ok {
        monIdx := i;
        if was {
          started := true;
          capturing := true;
        }
      }
    }
  }
}
