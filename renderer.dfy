/**
 * client/js/renderer.js without WebGL: the viewport fitting of `calcVp`,
 * the cursor rule of `setCursorStyle`, the late drop and jitter ring of
 * `queueFrameForPresentation`, the bookkeeping of `renderFrame`, and
 * `resetRenderer`. The decoder's output callback of media.js, which hands
 * each decoded frame to `queueFrameForPresentation`, is here as well.
 */
module Renderer {
  import opened Bytes
  import opened ClientState

  /** `CURSOR_TYPES` of state.js, indexed by the host's cursor id. */
  const CURSOR_TYPES: seq<string> := ["default", "text", "pointer", "wait", "progress", "crosshair", "move",
    "ew-resize", "ns-resize", "nwse-resize", "nesw-resize", "not-allowed", "help", "none"]

  // ---------------------------------------------------------------------
  // calcVp
  // ---------------------------------------------------------------------

  /**
   * `Math.round(n / d)` for an exact quotient: the nearest integer, halves
   * rounded up.
   */
  function RoundDiv(n: int, d: int): (r: int)
    requires d > 0
    ensures 2 * (r * d - n) <= d && 2 * (n - r * d) < d
  {
    var r := (2 * n + d) / (2 * d);
    DivBounds(2 * n + d, 2 * d);
    assert 2 * d * r == 2 * (r * d);
    r
  }

  lemma DivBounds(a: int, b: int)
    requires b > 0
    ensures b * (a / b) <= a < b * (a / b) + b
  {
  }

  /** `displayW || 1`: a zero dimension becomes 1. */
  function OrOne(d: int): int
  {
    if d == 0 then 1 else d
  }

  /** The display is wider than the video (`displayAspect > videoAspect`), so the height is the side filled. */
  predicate FillsHeight(videoW: int, videoH: int, displayW: int, displayH: int)
  {
    displayW * videoH > displayH * videoW
  }

  /**
   * `calcVp(videoW, videoH, displayW, displayH)`: the largest rectangle of
   * the video's aspect that fits the display, centred. The aspect ratios
   * are compared and scaled exactly, as cross products of the sizes.
   */
  function CalcVp(videoW: int, videoH: int, displayW: int, displayH: int): Viewport
  {
    if displayW <= 0 || displayH <= 0 || videoW <= 0 || videoH <= 0 then
      Viewport(0, 0, OrOne(displayW), OrOne(displayH))
    else if FillsHeight(videoW, videoH, displayW, displayH) then
      var w := RoundDiv(displayH * videoW, videoH);
      Viewport(RoundDiv(displayW - w, 2), 0, w, displayH)
    else
      var h := RoundDiv(displayW * videoH, videoW);
      Viewport(0, RoundDiv(displayH - h, 2), displayW, h)
  }

  /** Half of a gap, rounded, lies within the gap and splits it evenly up to one pixel. */
  lemma HalfGap(k: int)
    requires k >= 0
    ensures 0 <= RoundDiv(k, 2) <= k
    ensures -1 < 2 * RoundDiv(k, 2) - k <= 1
  {
  }

  /** The fitted side is at most the display's and never negative. */
  lemma FittedSide(n: int, d: int, limit: int)
    requires d > 0 && n >= 0 && limit > 0 && n <= limit * d
    ensures 0 <= RoundDiv(n, d) <= limit
  {
    var r := RoundDiv(n, d);
    if r > limit {
      MulMono(limit + 1, r, d);
    }
    if r < 0 {
      MulMono(r, -1, d);
    }
  }

  lemma MulMono(a: int, b: int, d: int)
    requires a <= b && d > 0
    ensures a * d <= b * d
  {
  }

  /**
   * With every dimension positive the viewport lies inside the display,
   * fills it along one axis, is centred along the other to within a
   * pixel, and keeps the video's aspect to within the rounding of the
   * other side.
   */
  lemma ViewportFits(videoW: int, videoH: int, displayW: int, displayH: int)
    requires videoW > 0 && videoH > 0 && displayW > 0 && displayH > 0
    ensures var vp := CalcVp(videoW, videoH, displayW, displayH);
      0 <= vp.x && 0 <= vp.y && 0 <= vp.w && 0 <= vp.h &&
      vp.x + vp.w <= displayW && vp.y + vp.h <= displayH &&
      -1 < 2 * vp.x - (displayW - vp.w) <= 1 && -1 < 2 * vp.y - (displayH - vp.h) <= 1
    ensures var vp := CalcVp(videoW, videoH, displayW, displayH);
      FillsHeight(videoW, videoH, displayW, displayH) ==>
        vp.h == displayH && vp.y == 0 &&
        2 * (vp.w * videoH - displayH * videoW) <= videoH && 2 * (displayH * videoW - vp.w * videoH) < videoH
    ensures var vp := CalcVp(videoW, videoH, displayW, displayH);
      !FillsHeight(videoW, videoH, displayW, displayH) ==>
        vp.w == displayW && vp.x == 0 &&
        2 * (vp.h * videoW - displayW * videoH) <= videoW && 2 * (displayW * videoH - vp.h * videoW) < videoW
  {
    if FillsHeight(videoW, videoH, displayW, displayH) {
      FittedSide(displayH * videoW, videoH, displayW);
      var w := RoundDiv(displayH * videoW, videoH);
      HalfGap(displayW - w);
    } else {
      FittedSide(displayW * videoH, videoW, displayH);
      var h := RoundDiv(displayW * videoH, videoW);
      HalfGap(displayH - h);
    }
  }

  /** A zero or negative dimension gives the whole display, a zero side counted as 1. */
  lemma DegenerateViewport(videoW: int, videoH: int, displayW: int, displayH: int)
    requires displayW <= 0 || displayH <= 0 || videoW <= 0 || videoH <= 0
    ensures CalcVp(videoW, videoH, displayW, displayH) == Viewport(0, 0, OrOne(displayW), OrOne(displayH))
    ensures displayW == 0 ==> CalcVp(videoW, videoH, displayW, displayH).w == 1
  {
  }

  // ---------------------------------------------------------------------
  // setCursorStyle
  // ---------------------------------------------------------------------

  /** The CSS cursor `setCursorStyle(type)` puts on the canvas. */
  function CursorStyle(shape: nat, relative: bool, locked: bool): string
  {
    if relative || locked then "" else if shape < |CURSOR_TYPES| then CURSOR_TYPES[shape] else "default"
  }

  /**
   * The cursor is hidden exactly in relative or pointer-locked mode;
   * otherwise it is the named shape, or the default one for an unknown id.
   */
  lemma CursorShown(shape: nat, relative: bool, locked: bool)
    ensures CursorStyle(shape, relative, locked) == "" <==> relative || locked
    ensures !(relative || locked) ==> CursorStyle(shape, relative, locked) in CURSOR_TYPES
    ensures !(relative || locked) && shape >= |CURSOR_TYPES| ==> CursorStyle(shape, relative, locked) == "default"
  {
    if !(relative || locked) && shape < |CURSOR_TYPES| {
      assert CURSOR_TYPES[shape] != "" by {
        assert forall i :: 0 <= i < |CURSOR_TYPES| ==> |CURSOR_TYPES[i]| > 0;
      }
    }
  }

  /** `setCursorStyle(type)` on the session's canvas. */
  method SetCursorStyle(s: Session, shape: nat)
    modifies s`cursor
    ensures s.cursor == CursorStyle(shape, s.relativeMouseMode, s.pointerLocked)
  {
    if s.relativeMouseMode || s.pointerLocked {
      s.cursor := "";
    } else if shape < |CURSOR_TYPES| {
      s.cursor := CURSOR_TYPES[shape];
    } else {
      s.cursor := "default";
    }
  }

  // ---------------------------------------------------------------------
  // queueFrameForPresentation
  // ---------------------------------------------------------------------

  /** What `queueFrameForPresentation` records about a frame presented on time. */
  function Presented(j: Jitter, age: real, serverAge: Option<real>, nowMs: real): (r: Jitter)
    ensures r.framesDroppedLate == j.framesDroppedLate
    ensures r.frameAgeSum == j.frameAgeSum + age && r.frameAgeSamples == j.frameAgeSamples + 1
    ensures r.lastPresentTs == nowMs
  {
    var j1 := j.(frameAgeSum := j.frameAgeSum + age, frameAgeSamples := j.frameAgeSamples + 1);
    var j2 := match serverAge
      case Some(a) => j1.(serverAgeSum := j1.serverAgeSum + a, serverAgeSamples := j1.serverAgeSamples + 1)
      case None => j1;
    var j3 := if j.lastPresentTs > 0.0 then
        j2.(presentIntervals := Push(j.presentIntervals, nowMs - j.lastPresentTs, JITTER_SAMPLES))
      else j2;
    j3.(lastPresentTs := nowMs)
  }

  /** The server-side age of a frame, taken only with a valid clock and a non-zero capture time. */
  function ServerAge(clock: ClockSync, serverCapTs: nat, nowUs: int): Option<real>
  {
    if clock.valid && serverCapTs != 0 then Some(ServerFrameAgeMs(clock, nowUs, serverCapTs as real)) else None
  }

  /** The jitter state after a frame of the given local age is queued at nowMs. */
  function Queued(j: Jitter, age: real, serverAge: Option<real>, nowMs: real): Jitter
  {
    if age > JITTER_MAX_AGE_MS then j.(framesDroppedLate := j.framesDroppedLate + 1)
    else Presented(j, age, serverAge, nowMs)
  }

  /**
   * A late frame only counts as dropped late; a frame on time adds its age,
   * its server age exactly when one was taken, an interval exactly when a
   * frame was presented before, and becomes the last one presented.
   */
  lemma QueuedEffects(j: Jitter, age: real, serverAge: Option<real>, nowMs: real)
    ensures age > JITTER_MAX_AGE_MS ==>
      Queued(j, age, serverAge, nowMs) == j.(framesDroppedLate := j.framesDroppedLate + 1)
    ensures age <= JITTER_MAX_AGE_MS ==>
      var r := Queued(j, age, serverAge, nowMs);
      r.framesDroppedLate == j.framesDroppedLate && r.lastPresentTs == nowMs &&
      r.frameAgeSum == j.frameAgeSum + age && r.frameAgeSamples == j.frameAgeSamples + 1 &&
      (r.serverAgeSamples == j.serverAgeSamples + 1 <==> serverAge.Some?) &&
      (serverAge.None? ==> r.serverAgeSum == j.serverAgeSum && r.serverAgeSamples == j.serverAgeSamples) &&
      (serverAge.Some? ==> r.serverAgeSum == j.serverAgeSum + serverAge.value) &&
      (j.lastPresentTs <= 0.0 ==> r.presentIntervals == j.presentIntervals) &&
      (j.lastPresentTs > 0.0 ==> r.presentIntervals == Push(j.presentIntervals, nowMs - j.lastPresentTs, JITTER_SAMPLES))
  {
  }

  /** The interval ring never holds more than 60 intervals, the newest last. */
  lemma {:induction false} IntervalsBounded(j: Jitter, age: real, serverAge: Option<real>, nowMs: real)
    requires |j.presentIntervals| <= JITTER_SAMPLES
    ensures var r := Queued(j, age, serverAge, nowMs);
      |r.presentIntervals| <= JITTER_SAMPLES &&
      (age <= JITTER_MAX_AGE_MS && j.lastPresentTs > 0.0 ==>
        r.presentIntervals == (j.presentIntervals + [nowMs - j.lastPresentTs])[|j.presentIntervals| + 1 - |r.presentIntervals|..])
  {
    if age <= JITTER_MAX_AGE_MS && j.lastPresentTs > 0.0 {
      PushKeepsNewest(j.presentIntervals, nowMs - j.lastPresentTs, JITTER_SAMPLES);
    }
  }

  // ---------------------------------------------------------------------
  // renderFrame
  // ---------------------------------------------------------------------

  /** A decoded frame as `renderFrame` sees it: display size (0 when missing) and timestamp. */
  datatype VideoFrame = VideoFrame(width: int, height: int, timestamp: nat)

  /** How `texImage2D` went: uploaded, a GL error code, or an exception. */
  datatype Upload = Uploaded | GlError | UploadThrew

  /** The session fields the renderer writes. */
  datatype RenderState = RenderState(
    stats: Stats, width: int, height: int, lastVp: Viewport, hasValidTexture: bool,
    lastViewport: Option<Viewport>, frameMeta: map<nat, FrameMeta>, renderMetrics: RenderMetrics,
    jitter: Jitter)

  function RenderView(s: Session): RenderState
    reads s
  {
    RenderState(s.stats, s.width, s.height, s.lastVp, s.hasValidTexture, s.lastViewport, s.frameMeta,
                s.renderMetrics, s.jitter)
  }

  /** One more render error, and the frame counted as dropped (`logVideoDrop`). */
  function RenderError(r: RenderState): RenderState
  {
    r.(stats := r.stats.(framesDropped := r.stats.framesDropped + 1, renderErrors := r.stats.renderErrors + 1))
  }

  /** The frame's metadata entry, if it names a non-zero capture time. */
  function MetaKey(meta: Option<FrameMeta>): Option<nat>
  {
    if meta.Some? && meta.value.capTs != 0 then Some(meta.value.capTs) else None
  }

  /**
   * `renderFrame(frame, meta)` on a canvas of the given size: a frame
   * without a size is an error; otherwise the size and viewport are taken,
   * the upload's outcome recorded, the metadata entry deleted and the
   * render timed.
   */
  function Render(r: RenderState, frame: VideoFrame, meta: Option<FrameMeta>, canvasW: int, canvasH: int,
                  upload: Upload, renderMs: real): RenderState
  {
    if frame.width <= 0 || frame.height <= 0 then RenderError(r)
    else
      var vp := CalcVp(frame.width, frame.height, canvasW, canvasH);
      var r1 := r.(width := frame.width, height := frame.height, lastVp := vp);
      var r2 := if upload == Uploaded then r1.(hasValidTexture := true, lastViewport := Some(vp)) else RenderError(r1);
      var r3 := match MetaKey(meta) case Some(k) => r2.(frameMeta := r2.frameMeta - {k}) case None => r2;
      r3.(renderMetrics := RenderMetrics(r3.renderMetrics.renderCount + 1, r3.renderMetrics.renderTimeSum + renderMs))
  }

  /**
   * A frame without a size is an error that leaves its metadata and the
   * render counters alone; a sized frame is always timed, its metadata
   * entry is always gone, and only a failed upload is an error.
   */
  lemma RenderEffects(r: RenderState, frame: VideoFrame, meta: Option<FrameMeta>, canvasW: int, canvasH: int,
                      upload: Upload, renderMs: real)
    ensures var r' := Render(r, frame, meta, canvasW, canvasH, upload, renderMs);
      frame.width <= 0 || frame.height <= 0 ==>
        r'.frameMeta == r.frameMeta && r'.renderMetrics == r.renderMetrics &&
        r'.stats.renderErrors == r.stats.renderErrors + 1 && r'.hasValidTexture == r.hasValidTexture
    ensures var r' := Render(r, frame, meta, canvasW, canvasH, upload, renderMs);
      frame.width > 0 && frame.height > 0 ==>
        r'.renderMetrics.renderCount == r.renderMetrics.renderCount + 1 &&
        (meta.Some? && meta.value.capTs != 0 ==> meta.value.capTs !in r'.frameMeta) &&
        r'.frameMeta.Keys <= r.frameMeta.Keys &&
        (r'.stats.renderErrors == r.stats.renderErrors + 1 <==> upload != Uploaded) &&
        (upload == Uploaded ==> r'.hasValidTexture && r'.lastViewport == Some(r'.lastVp)) &&
        r'.width == frame.width && r'.height == frame.height
  {
  }

  /** `renderFrame` on the session. */
  method RenderFrame(s: Session, frame: VideoFrame, meta: Option<FrameMeta>, canvasW: int, canvasH: int,
                     upload: Upload, renderMs: real)
    modifies s`stats, s`width, s`height, s`lastVp, s`hasValidTexture, s`lastViewport, s`frameMeta, s`renderMetrics
    ensures RenderView(s) == Render(old(RenderView(s)), frame, meta, canvasW, canvasH, upload, renderMs)
  {
    if frame.width <= 0 || frame.height <= 0 {
      s.LogVideoDrop();
      s.stats := s.stats.(renderErrors := s.stats.renderErrors + 1);
      return;
    }
    s.width, s.height := frame.width, frame.height;
    var vp := CalcVp(frame.width, frame.height, canvasW, canvasH);
    s.lastVp := vp;
    if upload == Uploaded {
      s.hasValidTexture := true;
      s.lastViewport := Some(vp);
    } else {
      s.LogVideoDrop();
      s.stats := s.stats.(renderErrors := s.stats.renderErrors + 1);
    }
    if meta.Some? && meta.value.capTs != 0 {
      s.frameMeta := s.frameMeta - {meta.value.capTs};
    }
    s.RecordRenderTime(renderMs);
  }

  /** The jitter bookkeeping of `queueFrameForPresentation`, before the frame is rendered. */
  method TimeFrame(s: Session, serverCapTs: nat, queuedAt: real, nowMs: real, nowUs: int) returns (onTime: bool)
    modifies s`jitter, s`stats
    ensures onTime == (nowMs - queuedAt <= JITTER_MAX_AGE_MS)
    ensures s.jitter == Queued(old(s.jitter), nowMs - queuedAt, ServerAge(s.clock, serverCapTs, nowUs), nowMs)
    ensures s.stats == if onTime then old(s.stats) else old(s.stats).(framesDropped := old(s.stats).framesDropped + 1)
  {
    var localAge := nowMs - queuedAt;
    if localAge > JITTER_MAX_AGE_MS {
      s.jitter := s.jitter.(framesDroppedLate := s.jitter.framesDroppedLate + 1);
      s.LogVideoDrop();
      return false;
    }
    ghost var j := s.jitter;
    s.jitter := s.jitter.(frameAgeSum := s.jitter.frameAgeSum + localAge,
                          frameAgeSamples := s.jitter.frameAgeSamples + 1);
    if s.clock.valid && serverCapTs != 0 {
      var serverAge := ServerFrameAgeMs(s.clock, nowUs, serverCapTs as real);
      s.jitter := s.jitter.(serverAgeSum := s.jitter.serverAgeSum + serverAge,
                            serverAgeSamples := s.jitter.serverAgeSamples + 1);
    }
    if s.jitter.lastPresentTs > 0.0 {
      var intervals := Slide(s.jitter.presentIntervals, nowMs - s.jitter.lastPresentTs, JITTER_SAMPLES);
      s.jitter := s.jitter.(presentIntervals := intervals);
    }
    s.jitter := s.jitter.(lastPresentTs := nowMs);
    onTime := true;
  }

  /** `queueFrameForPresentation(entry)`: a late frame is closed unseen, any other one rendered. */
  method QueueFrameForPresentation(s: Session, frame: VideoFrame, meta: Option<FrameMeta>, serverCapTs: nat,
                                   queuedAt: real, nowMs: real, nowUs: int,
                                   canvasW: int, canvasH: int, upload: Upload, renderMs: real)
    modifies s`jitter, s`stats, s`width, s`height, s`lastVp, s`hasValidTexture, s`lastViewport, s`frameMeta,
             s`renderMetrics
    ensures var j := Queued(old(s.jitter), nowMs - queuedAt, ServerAge(s.clock, serverCapTs, nowUs), nowMs);
      if nowMs - queuedAt > JITTER_MAX_AGE_MS then
        RenderView(s) == old(RenderView(s)).(jitter := j,
          stats := old(s.stats).(framesDropped := old(s.stats).framesDropped + 1))
      else
        RenderView(s) == Render(old(RenderView(s)).(jitter := j), frame, meta, canvasW, canvasH, upload, renderMs)
  {
    var onTime := TimeFrame(s, serverCapTs, queuedAt, nowMs, nowUs);
    if onTime {
      RenderFrame(s, frame, meta, canvasW, canvasH, upload, renderMs);
    }
  }

  /** `serverCapTs: meta?.capTs || frame.timestamp`. */
  function ServerCapTs(meta: Option<FrameMeta>, frame: VideoFrame): nat
  {
    if meta.Some? && meta.value.capTs != 0 then meta.value.capTs else frame.timestamp
  }

  /**
   * The decoder's `output` callback of media.js: the decode is timed when
   * its metadata holds a start time, and the frame is queued at the same
   * instant, so it is never late.
   */
  method OnFrameOutput(s: Session, frame: VideoFrame, nowMs: real, nowUs: int, queueSize: nat,
                       canvasW: int, canvasH: int, upload: Upload, renderMs: real)
    modifies s`decodeMetrics, s`jitter, s`stats, s`width, s`height, s`lastVp, s`hasValidTexture, s`lastViewport,
             s`frameMeta, s`renderMetrics
    ensures var meta := if frame.timestamp in old(s.frameMeta) then Some(old(s.frameMeta)[frame.timestamp]) else None;
      s.decodeMetrics == (if meta.Some? && meta.value.decodeStartMs != 0.0
        then RecordDecodeTime(old(s.decodeMetrics), nowMs - meta.value.decodeStartMs, queueSize)
        else old(s.decodeMetrics)) &&
      RenderView(s) == Render(old(RenderView(s)).(jitter := Presented(old(s.jitter), 0.0,
          ServerAge(s.clock, ServerCapTs(meta, frame), nowUs), nowMs)), frame, meta, canvasW, canvasH, upload, renderMs)
  {
    var meta := if frame.timestamp in s.frameMeta then Some(s.frameMeta[frame.timestamp]) else None;
    if meta.Some? && meta.value.decodeStartMs != 0.0 {
      s.decodeMetrics := RecordDecodeTime(s.decodeMetrics, nowMs - meta.value.decodeStartMs, queueSize);
    }
    QueueFrameForPresentation(s, frame, meta, ServerCapTs(meta, frame), nowMs, nowMs, nowUs,
                              canvasW, canvasH, upload, renderMs);
  }

  // ---------------------------------------------------------------------
  // resetRenderer
  // ---------------------------------------------------------------------

  /** `resetRenderer`: no frame was presented, no texture is valid, the cursor is the default. */
  method ResetRenderer(s: Session)
    modifies s`jitter, s`hasValidTexture, s`lastViewport, s`cursor
    ensures s.jitter == old(s.jitter).(lastPresentTs := 0.0)
    ensures !s.hasValidTexture && s.lastViewport.None? && s.cursor == "default"
  {
    s.jitter := s.jitter.(lastPresentTs := 0.0);
    s.hasValidTexture := false;
    s.lastViewport := None;
    s.cursor := "default";
  }

  /** After a reset the next frame on time records no interval. */
  lemma ResetRecordsNoInterval(j: Jitter, age: real, serverAge: Option<real>, nowMs: real)
    ensures Queued(j.(lastPresentTs := 0.0), age, serverAge, nowMs).presentIntervals == j.presentIntervals
  {
  }
}
