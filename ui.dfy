/**
 * The settings panel of client/js/ui.js: the stored fps and codec
 * preferences, the codec options and the codec chosen when the preferred
 * one cannot be used, the fps dropdown, and the uptime shown in the stats.
 * A stored preference is the number `parseInt` reads from local storage,
 * none when that is NaN.
 */
module Ui {
  import opened Bytes
  import D = Decimal

  // ---------------------------------------------------------------------
  // Stored preferences
  // ---------------------------------------------------------------------

  const MIN_FPS: int := 1
  const MAX_FPS: int := 240

  predicate FpsInRange(v: int)
  {
    MIN_FPS <= v <= MAX_FPS
  }

  predicate CodecInRange(v: int)
  {
    0 <= v <= 2
  }

  /** `getStoredFps`: the stored rate when it is 1..240, else none. */
  function GetStoredFps(stored: Option<int>): (r: Option<int>)
    ensures r.Some? ==> FpsInRange(r.value) && r == stored
    ensures stored.Some? && FpsInRange(stored.value) ==> r == stored
  {
    if stored.Some? && FpsInRange(stored.value) then stored else None
  }

  /** `getStoredCodec`: the stored codec when it is 0..2, else the detected default, else AV1 (0). */
  function GetStoredCodec(stored: Option<int>, defaultCodec: Option<int>): (r: int)
    ensures stored.Some? && CodecInRange(stored.value) ==> r == stored.value
    ensures (defaultCodec.None? || CodecInRange(defaultCodec.value)) ==> CodecInRange(r)
  {
    if stored.Some? && CodecInRange(stored.value) then stored.value
    else if defaultCodec.Some? then defaultCodec.value
    else 0
  }

  // ---------------------------------------------------------------------
  // Codec options and the fallback rule
  // ---------------------------------------------------------------------

  /** What `detectCodecs` reports about this browser's decoders. */
  datatype Support = Support(av1: bool, h265: bool, h264: bool, av1Hw: bool, h265Hw: bool, h264Hw: bool)

  function ClientDecodes(s: Support, id: int): bool
  {
    if id == 0 then s.av1 else if id == 1 then s.h265 else if id == 2 then s.h264 else false
  }

  function Hardware(s: Support, id: int): bool
  {
    if id == 0 then s.av1Hw else if id == 1 then s.h265Hw else if id == 2 then s.h264Hw else false
  }

  /** `hostCaps & (1 << id)`: bit `id` of the host's codec mask. */
  predicate HostEncodes(caps: nat, id: int)
  {
    CodecInRange(id) && (caps / Pow2(id)) % 2 == 1
  }

  /** A codec both sides can use. */
  predicate Usable(s: Support, caps: nat, id: int)
  {
    CodecInRange(id) && ClientDecodes(s, id) && HostEncodes(caps, id)
  }

  const CODEC_NAMES: seq<string> := ["AV1", "H.265", "H.264"]

  datatype CodecOption = CodecOption(id: nat, name: string, suffix: string, disabled: bool)

  /** The option shown for codec `id`. */
  function OptionFor(s: Support, caps: nat, id: nat): (o: CodecOption)
    requires id <= 2
    ensures o.id == id && (o.disabled <==> !Usable(s, caps, id))
    ensures o.suffix == " (host n/a)" <==> !HostEncodes(caps, id)
  {
    var host, client := HostEncodes(caps, id), ClientDecodes(s, id);
    var suffix :=
      if !host then " (host n/a)"
      else if !client then " (unsupported)"
      else if Hardware(s, id) then " (HW)" else " (SW)";
    CodecOption(id, CODEC_NAMES[id], suffix, !(client && host))
  }

  /** The option list `updateCodecOpts` writes, in id order. */
  function CodecOptions(s: Support, caps: nat): (r: seq<CodecOption>)
    ensures |r| == 3 && forall i :: 0 <= i < 3 ==> r[i].id == i && (r[i].disabled <==> !Usable(s, caps, i))
  {
    [OptionFor(s, caps, 0), OptionFor(s, caps, 1), OptionFor(s, caps, 2)]
  }

  /** `[0, 1, 2].find(...)`: the lowest codec both sides can use. */
  function FirstUsable(s: Support, caps: nat): (r: Option<nat>)
    ensures r.Some? ==> Usable(s, caps, r.value) && forall id :: 0 <= id < r.value ==> !Usable(s, caps, id)
    ensures r.None? ==> forall id :: !Usable(s, caps, id)
  {
    if Usable(s, caps, 0) then Some(0)
    else if Usable(s, caps, 1) then Some(1)
    else if Usable(s, caps, 2) then Some(2)
    else None
  }

  /** The codec `updateCodecOpts` selects for a preferred one. */
  function SelectCodec(preferred: int, s: Support, caps: nat): int
  {
    if Usable(s, caps, preferred) then preferred
    else match FirstUsable(s, caps) case Some(id) => id case None => 2
  }

  /**
   * The preferred codec is kept when both sides can use it; otherwise the
   * lowest usable one is taken, and H.264 (2) when none is usable. The
   * choice is always a usable codec when there is one, and choosing again
   * from the choice changes nothing.
   */
  lemma SelectFacts(preferred: int, s: Support, caps: nat)
    ensures var r := SelectCodec(preferred, s, caps);
      && CodecInRange(r)
      && (Usable(s, caps, preferred) ==> r == preferred)
      && (!Usable(s, caps, preferred) && (exists id :: Usable(s, caps, id)) ==>
            Usable(s, caps, r) && forall id :: 0 <= id < r ==> !Usable(s, caps, id))
      && ((forall id :: !Usable(s, caps, id)) ==> r == 2)
      && SelectCodec(r, s, caps) == r
  {
    var r := SelectCodec(preferred, s, caps);
    if !Usable(s, caps, preferred) && exists id :: Usable(s, caps, id) {
      assert FirstUsable(s, caps).Some?;
    }
  }

  /** The selected option is enabled whenever any option is. */
  lemma SelectedEnabled(preferred: int, s: Support, caps: nat)
    requires exists i :: 0 <= i < 3 && !CodecOptions(s, caps)[i].disabled
    ensures var r := SelectCodec(preferred, s, caps);
      CodecInRange(r) && !CodecOptions(s, caps)[r].disabled
  {
    var i :| 0 <= i < 3 && !CodecOptions(s, caps)[i].disabled;
    assert Usable(s, caps, i);
    SelectFacts(preferred, s, caps);
  }

  // ---------------------------------------------------------------------
  // The fps dropdown
  // ---------------------------------------------------------------------

  const STANDARD_FPS: seq<nat> := [15, 30, 60, 120, 144]
  const STANDARD_FPS_TEXT: seq<string> := ["15", "30", "60", "120", "144"]

  lemma StandardDecs()
    ensures D.Dec(15) == "15" && D.Dec(30) == "30" && D.Dec(60) == "60"
    ensures D.Dec(120) == "120" && D.Dec(144) == "144"
  {
    assert D.Dec(1) == "1" && D.Dec(3) == "3" && D.Dec(6) == "6" && D.Dec(12) == "12" && D.Dec(14) == "14";
  }

  /** The dropdown compares texts; a rate's text is listed exactly when the rate is. */
  lemma StandardText(fps: nat)
    ensures D.Dec(fps) in STANDARD_FPS_TEXT <==> fps in STANDARD_FPS
  {
    StandardDecs();
    var t := D.Dec(fps);
    if t in STANDARD_FPS_TEXT {
      if t == "15" {
        D.DecInjective(fps, 15);
      } else if t == "30" {
        D.DecInjective(fps, 30);
      } else if t == "60" {
        D.DecInjective(fps, 60);
      } else if t == "120" {
        D.DecInjective(fps, 120);
      } else {
        D.DecInjective(fps, 144);
      }
    }
  }

  // ---------------------------------------------------------------------
  // Uptime
  // ---------------------------------------------------------------------

  const MINUTE: nat := 60
  const HOUR: nat := 3600
  const DAY: nat := 86400

  /** `Math.max(0, Math.floor(totalSeconds))`. */
  function WholeSeconds(t: real): nat
  {
    if t.Floor < 0 then 0 else t.Floor
  }

  datatype Span = Span(days: nat, hours: nat, minutes: nat, seconds: nat)

  lemma ModUnique(a: nat, d: nat, q: nat, r: nat)
    requires 0 < d && r < d && a == q * d + r
    ensures a % d == r && a / d == q
  {
    DivUnique(a, d, q);
    DivMod(a, d);
  }

  /** The split `formatUptime` makes: days, then hours, minutes and seconds within them. */
  function SplitSeconds(sec: nat): (sp: Span)
    ensures sp.hours < 24 && sp.minutes < 60 && sp.seconds < 60
    ensures sp.days * DAY + sp.hours * HOUR + sp.minutes * MINUTE + sp.seconds == sec
  {
    var sp := Span(sec / DAY, (sec % DAY) / HOUR, (sec % HOUR) / MINUTE, sec % MINUTE);
    SplitFacts(sec);
    sp
  }

  lemma SplitFacts(sec: nat)
    ensures (sec % DAY) / HOUR < 24 && (sec % HOUR) / MINUTE < 60
    ensures (sec / DAY) * DAY + ((sec % DAY) / HOUR) * HOUR + ((sec % HOUR) / MINUTE) * MINUTE + sec % MINUTE == sec
  {
    var d, r := sec / DAY, sec % DAY;
    DivMod(sec, DAY);
    var h, r2 := r / HOUR, r % HOUR;
    DivMod(r, HOUR);
    MulCancel(h, 24, HOUR);
    assert sec == (d * 24 + h) * HOUR + r2;
    ModUnique(sec, HOUR, d * 24 + h, r2);
    var m, s := r2 / MINUTE, r2 % MINUTE;
    DivMod(r2, MINUTE);
    MulCancel(m, 60, MINUTE);
    assert sec == ((d * 24 + h) * 60 + m) * MINUTE + s;
    ModUnique(sec, MINUTE, (d * 24 + h) * 60 + m, s);
  }

  /**
   * `formatUptime`: leading zero units are left out, so the seconds always
   * show (`${days}d ${hours}h ${minutes}m ${seconds}s` and its tails).
   */
  function FormatUptime(t: real): string
  {
    var sp := SplitSeconds(WholeSeconds(t));
    var d, h, m, s := D.Dec(sp.days), D.Dec(sp.hours), D.Dec(sp.minutes), D.Dec(sp.seconds);
    var secs := s + "s";
    var mins := m + ("m " + secs);
    var hrs := h + ("h " + mins);
    if sp.days > 0 then d + ("d " + hrs)
    else if sp.hours > 0 then hrs
    else if sp.minutes > 0 then mins
    else secs
  }

  /** One figure of the uptime with its unit letter and its length in seconds. */
  datatype Unit = Unit(value: nat, letter: char, weight: nat)

  /** Every unit, largest first. */
  function AllUnits(sp: Span): seq<Unit>
  {
    [Unit(sp.days, 'd', DAY), Unit(sp.hours, 'h', HOUR), Unit(sp.minutes, 'm', MINUTE), Unit(sp.seconds, 's', 1)]
  }

  /** Leading units that are zero are dropped, the last one is always kept. */
  function DropZeros(us: seq<Unit>): (r: seq<Unit>)
    requires |us| >= 1
    ensures 1 <= |r| <= |us|
    ensures |r| > 1 ==> r[0].value > 0
  {
    if |us| > 1 && us[0].value == 0 then DropZeros(us[1..]) else us
  }

  function Total(us: seq<Unit>): nat
  {
    if us == [] then 0 else us[0].value * us[0].weight + Total(us[1..])
  }

  /** The units written out as "<n><letter>" separated by spaces. */
  function Render(us: seq<Unit>): string
    requires |us| >= 1
  {
    var n := D.Dec(us[0].value);
    if |us| == 1 then n + [us[0].letter] else n + ([us[0].letter, ' '] + Render(us[1..]))
  }

  lemma {:induction false} DropZerosTotal(us: seq<Unit>)
    requires |us| >= 1
    ensures Total(DropZeros(us)) == Total(us)
  {
    if |us| > 1 && us[0].value == 0 {
      DropZerosTotal(us[1..]);
    }
  }

  lemma AllUnitsTotal(sp: Span)
    ensures Total(AllUnits(sp)) == sp.days * DAY + sp.hours * HOUR + sp.minutes * MINUTE + sp.seconds
  {
    var us := AllUnits(sp);
    assert us[3..][1..] == [];
    assert Total(us[3..]) == sp.seconds;
    assert us[2..][1..] == us[3..];
    assert Total(us[2..]) == sp.minutes * MINUTE + Total(us[3..]);
    assert us[1..][1..] == us[2..];
    assert Total(us[1..]) == sp.hours * HOUR + Total(us[2..]);
    assert Total(us) == sp.days * DAY + Total(us[1..]);
  }

  /** Which suffix of the units is shown. */
  lemma DropZerosAll(sp: Span)
    ensures var us := AllUnits(sp);
      DropZeros(us) == if sp.days > 0 then us else if sp.hours > 0 then us[1..]
        else if sp.minutes > 0 then us[2..] else us[3..]
  {
    var us := AllUnits(sp);
    var u1, u2, u3 := us[1], us[2], us[3];
    assert us[1..] == [u1, u2, u3] && us[2..] == [u2, u3] && us[3..] == [u3];
    assert [u1, u2, u3][1..] == [u2, u3] && [u2, u3][1..] == [u3];
    var t3 := DropZeros([u3]);
    var t2 := DropZeros([u2, u3]);
    var t1 := DropZeros([u1, u2, u3]);
    assert t2 == if sp.minutes > 0 then [u2, u3] else t3;
    assert t1 == if sp.hours > 0 then [u1, u2, u3] else t2;
  }

  lemma RenderAll(sp: Span)
    ensures var us := AllUnits(sp);
      var d, h, m, s := D.Dec(sp.days), D.Dec(sp.hours), D.Dec(sp.minutes), D.Dec(sp.seconds);
      var secs := s + "s";
      var mins := m + ("m " + secs);
      var hrs := h + ("h " + mins);
      && Render(us[3..]) == secs
      && Render(us[2..]) == mins
      && Render(us[1..]) == hrs
      && Render(us) == d + ("d " + hrs)
  {
    var us := AllUnits(sp);
    assert us[3..] == [us[3]];
    assert us[2..][1..] == us[3..];
    assert us[1..][1..] == us[2..];
  }

  /**
   * `formatUptime` writes the units from the first non-zero one down to the
   * seconds, and the units written still add up to the whole seconds.
   */
  lemma UptimeIsReference(t: real)
    ensures var sp := SplitSeconds(WholeSeconds(t));
      && FormatUptime(t) == Render(DropZeros(AllUnits(sp)))
      && Total(DropZeros(AllUnits(sp))) == WholeSeconds(t)
  {
    var sp := SplitSeconds(WholeSeconds(t));
    DropZerosTotal(AllUnits(sp));
    AllUnitsTotal(sp);
    DropZerosAll(sp);
    RenderAll(sp);
  }

  // ---------------------------------------------------------------------
  // The panel's state
  // ---------------------------------------------------------------------

  /** The settings panel: its controls, the stored preferences and the changes applied. */
  class Panel {
    var storedFps: Option<int>     // the FPS preference, as `loadPref` reads it
    var storedCodec: Option<int>   // the codec preference, as `loadPref` reads it
    var fpsSelect: string          // `fpsSel.value`
    var customShown: bool          // `customFpsRow` is displayed
    var customValue: int           // `customFpsInput.value`
    var codecOptions: seq<CodecOption>
    var codecSelect: int           // `codecSel.value`
    var currentCodec: int          // `S.currentCodec`
    var appliedFps: seq<int>       // the rates handed to `applyFpsFn`
    var appliedCodecs: seq<int>    // the codecs handed to `applyCodecFn`

    constructor(fps: Option<int>, codec: Option<int>)
      ensures storedFps == fps && storedCodec == codec && appliedFps == [] && appliedCodecs == []
    {
      storedFps, storedCodec := fps, codec;
      fpsSelect, customShown, customValue := "", false, 0;
      codecOptions, codecSelect, currentCodec := [], 0, 0;
      appliedFps, appliedCodecs := [], [];
    }

    /**
     * `updateFpsDropdown`: a standard rate is selected directly and hides
     * the custom row; any other rate selects "custom" and shows it.
     */
    method UpdateFpsDropdown(fps: nat)
      modifies this
      ensures fps in STANDARD_FPS ==> fpsSelect == D.Dec(fps) && !customShown && customValue == old(customValue)
      ensures fps !in STANDARD_FPS ==> fpsSelect == "custom" && customShown && customValue == fps
      ensures storedFps == old(storedFps) && storedCodec == old(storedCodec) && appliedFps == old(appliedFps)
      ensures appliedCodecs == old(appliedCodecs) && codecOptions == old(codecOptions)
      ensures codecSelect == old(codecSelect) && currentCodec == old(currentCodec)
    {
      StandardText(fps);
      var text := D.Dec(fps);
      if text in STANDARD_FPS_TEXT {
        fpsSelect := text;
        customShown := false;
      } else {
        fpsSelect := "custom";
        customValue := fps;
        customShown := true;
      }
    }

    /**
     * `customFpsApply.onclick`: a rate of 1..240 is saved and applied,
     * anything else (NaN included) changes nothing. A saved rate is what
     * `getStoredFps` reads back.
     */
    method CustomFpsApply(parsed: Option<int>)
      modifies this
      ensures parsed.Some? && FpsInRange(parsed.value) ==>
        storedFps == parsed && appliedFps == old(appliedFps) + [parsed.value] && GetStoredFps(storedFps) == parsed
      ensures !(parsed.Some? && FpsInRange(parsed.value)) ==> storedFps == old(storedFps) && appliedFps == old(appliedFps)
      ensures storedCodec == old(storedCodec) && appliedCodecs == old(appliedCodecs) && fpsSelect == old(fpsSelect)
      ensures customShown == old(customShown) && customValue == old(customValue) && codecSelect == old(codecSelect)
      ensures currentCodec == old(currentCodec) && codecOptions == old(codecOptions)
    {
      if parsed.Some? && FpsInRange(parsed.value) {
        storedFps := parsed;
        appliedFps := appliedFps + [parsed.value];
      }
    }

    /**
     * `updateCodecOpts`: the options are rewritten and the selection is
     * the stored (else default) codec if both sides can use it, else the
     * fallback; `S.currentCodec` follows the selection.
     */
    method UpdateCodecOpts(s: Support, caps: nat, defaultCodec: Option<int>)
      modifies this
      ensures codecOptions == CodecOptions(s, caps)
      ensures codecSelect == currentCodec == SelectCodec(GetStoredCodec(storedCodec, defaultCodec), s, caps)
      ensures storedFps == old(storedFps) && storedCodec == old(storedCodec) && appliedFps == old(appliedFps)
      ensures appliedCodecs == old(appliedCodecs) && fpsSelect == old(fpsSelect)
      ensures customShown == old(customShown) && customValue == old(customValue)
    {
      codecOptions := CodecOptions(s, caps);
      var preferred := GetStoredCodec(storedCodec, defaultCodec);
      if Usable(s, caps, preferred) {
        codecSelect := preferred;
      } else {
        var fallback := FirstUsable(s, caps);
        codecSelect := if fallback.Some? then fallback.value else 2;
      }
      currentCodec := codecSelect;
    }

    /**
     * `codecSel.onchange`: the codec is saved and applied; a saved codec
     * is what `getStoredCodec` reads back, whatever the default.
     */
    method CodecChanged(codec: int)
      modifies this
      ensures storedCodec == Some(codec) && appliedCodecs == old(appliedCodecs) + [codec]
      ensures CodecInRange(codec) ==> forall d :: GetStoredCodec(storedCodec, d) == codec
      ensures storedFps == old(storedFps) && appliedFps == old(appliedFps) && fpsSelect == old(fpsSelect)
      ensures customShown == old(customShown) && customValue == old(customValue) && codecSelect == old(codecSelect)
      ensures currentCodec == old(currentCodec) && codecOptions == old(codecOptions)
    {
      storedCodec := Some(codec);
      appliedCodecs := appliedCodecs + [codec];
    }
  }
}
