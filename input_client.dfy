/**
 * The browser side of remote input (client/js/input.js): key codes, the
 * modifier mask, the little-endian messages for buttons, wheel turns,
 * keys and pointer moves, and the coalescing of pointer moves until the
 * next animation frame.
 *
 * The input channel's state, the focused element, the clipboard-sync
 * setting and the pointer position (`toNormalized`, floating point) are
 * inputs of the handlers. A normalised pointer position is kept as the
 * bit patterns of its two float32 coordinates, which is what the message
 * carries.
 */
module ClientInput {
  import opened Bytes
  import Input

  // ---------------------------------------------------------------------
  // Key codes and modifiers
  // ---------------------------------------------------------------------

  /** `CODE_MAP`: `KeyboardEvent.code` names with their key codes. */
  function CodeMap(code: string): Option<nat>
  {
    match code
    case "Backspace" => Some(8)
    case "Tab" => Some(9)
    case "Enter" => Some(13)
    case "ShiftLeft" => Some(16)
    case "ShiftRight" => Some(16)
    case "ControlLeft" => Some(17)
    case "ControlRight" => Some(17)
    case "AltLeft" => Some(18)
    case "AltRight" => Some(18)
    case "Pause" => Some(19)
    case "CapsLock" => Some(20)
    case "Escape" => Some(27)
    case "Space" => Some(32)
    case "PageUp" => Some(33)
    case "PageDown" => Some(34)
    case "End" => Some(35)
    case "Home" => Some(36)
    case "ArrowLeft" => Some(37)
    case "ArrowUp" => Some(38)
    case "ArrowRight" => Some(39)
    case "ArrowDown" => Some(40)
    case "PrintScreen" => Some(44)
    case "Insert" => Some(45)
    case "Delete" => Some(46)
    case "MetaLeft" => Some(91)
    case "MetaRight" => Some(92)
    case "ContextMenu" => Some(93)
    case "Numpad0" => Some(96)
    case "Numpad1" => Some(97)
    case "Numpad2" => Some(98)
    case "Numpad3" => Some(99)
    case "Numpad4" => Some(100)
    case "Numpad5" => Some(101)
    case "Numpad6" => Some(102)
    case "Numpad7" => Some(103)
    case "Numpad8" => Some(104)
    case "Numpad9" => Some(105)
    case "NumpadMultiply" => Some(106)
    case "NumpadAdd" => Some(107)
    case "NumpadSubtract" => Some(109)
    case "NumpadDecimal" => Some(110)
    case "NumpadDivide" => Some(111)
    case "F1" => Some(112)
    case "F2" => Some(113)
    case "F3" => Some(114)
    case "F4" => Some(115)
    case "F5" => Some(116)
    case "F6" => Some(117)
    case "F7" => Some(118)
    case "F8" => Some(119)
    case "F9" => Some(120)
    case "F10" => Some(121)
    case "F11" => Some(122)
    case "F12" => Some(123)
    case "NumLock" => Some(144)
    case "ScrollLock" => Some(145)
    case "Semicolon" => Some(186)
    case "Equal" => Some(187)
    case "Comma" => Some(188)
    case "Minus" => Some(189)
    case "Period" => Some(190)
    case "Slash" => Some(191)
    case "Backquote" => Some(192)
    case "BracketLeft" => Some(219)
    case "Backslash" => Some(220)
    case "BracketRight" => Some(221)
    case "Quote" => Some(222)
    case _ => None
  }

  /**
   * `codeToVK`: "Key" or "Digit" followed by one character gives that
   * character's code; other codes go through `CODE_MAP`; unknown ones give
   * 0, which means the key is not sent.
   */
  function CodeToVK(code: string): (vk: nat)
  {
    if |code| == 4 && code[..3] == "Key" then code[3] as nat
    else if |code| == 6 && code[..5] == "Digit" then code[5] as nat
    else if CodeMap(code).Some? then CodeMap(code).value
    else 0
  }

  /**
   * The letter and digit keys reach the server unchanged: the client sends
   * the character's code and the server's `JsKeyToVK` passes it through.
   */
  lemma LettersAndDigitsPassThrough(c: char)
    ensures 'A' <= c <= 'Z' ==> CodeToVK("Key" + [c]) == c as nat && Input.JsKeyToVK(c as nat) == c as nat
    ensures '0' <= c <= '9' ==> CodeToVK("Digit" + [c]) == c as nat && Input.JsKeyToVK(c as nat) == c as nat
  {
    assert ("Key" + [c])[..3] == "Key";
    assert ("Digit" + [c])[..5] == "Digit";
  }

  /**
   * Every named key the client sends is accepted by the server as the same
   * virtual key, except ContextMenu (93), which the server drops as unknown.
   */
  lemma NamedKeysAgree(code: string)
    requires CodeMap(code).Some?
    ensures CodeMap(code).value != 93 ==> Input.JsKeyToVK(CodeMap(code).value) == CodeMap(code).value
    ensures CodeMap(code).value == 93 ==> Input.JsKeyToVK(93) == 0
  {
  }

  /** `getModifiers`: ctrl, alt, shift and meta as bits 0, 1, 2 and 3. */
  function Modifiers(ctrl: bool, alt: bool, shift: bool, meta: bool): (m: nat)
    ensures m < 16
    ensures (m % 2 == 1) == ctrl && (m / 2 % 2 == 1) == alt && (m / 4 % 2 == 1) == shift && (m / 8 == 1) == meta
  {
    // the bits are disjoint, so the `|` of the source is their sum
    (if ctrl then 1 else 0) + (if alt then 2 else 0) + (if shift then 4 else 0) + (if meta then 8 else 0)
  }

  /** `BUTTON_MAP[e.button] ?? 0`: browser buttons to the server's 0..4 (left, right, middle, back, forward). */
  function ButtonOf(b: int): (r: nat)
    ensures r <= 4
  {
    if b == 0 then 0
    else if b == 2 then 1
    else if b == 1 then 2
    else if b == 3 then 3
    else if b == 4 then 4
    else 0
  }

  /**
   * Each browser button presses the same OS button: primary is left,
   * auxiliary is middle, secondary is right, 3 and 4 are the X buttons;
   * the server never refuses a mapped button as out of range.
   */
  lemma ButtonsLand(down: bool)
    ensures Input.ButtonFlag(ButtonOf(0), down) == (if down then Input.MOUSEEVENTF_LEFTDOWN else Input.MOUSEEVENTF_LEFTUP)
    ensures Input.ButtonFlag(ButtonOf(1), down) == (if down then Input.MOUSEEVENTF_MIDDLEDOWN else Input.MOUSEEVENTF_MIDDLEUP)
    ensures Input.ButtonFlag(ButtonOf(2), down) == (if down then Input.MOUSEEVENTF_RIGHTDOWN else Input.MOUSEEVENTF_RIGHTUP)
    ensures ButtonOf(3) == 3 && ButtonOf(4) == 4
    ensures forall b :: ButtonOf(b) <= 4
  {
  }

  // ---------------------------------------------------------------------
  // Messages
  // ---------------------------------------------------------------------

  /** `mkBtnBuf`: magic, button (u8), down (u8). */
  function BtnBuf(btn: nat, down: bool): (r: seq<byte>)
    ensures |r| == 6
  {
    LE(Input.MSG_MOUSE_BTN, 4) + [U8(btn), if down then 1 else 0]
  }

  /** `mkWheelBuf`: magic and the two rounded deltas as int16 (which wrap). */
  function WheelBuf(dx: int, dy: int): (r: seq<byte>)
    ensures |r| == 8
  {
    LE(Input.MSG_MOUSE_WHEEL, 4) + LE(FromInt16(dx), 2) + LE(FromInt16(dy), 2)
  }

  /** `mkKeyBuf`: magic, key code (u16), scan code (u16), down (u8), modifiers (u8). */
  function KeyBuf(vk: nat, scan: nat, down: bool, mods: nat): (r: seq<byte>)
    ensures |r| == 10
  {
    LE(Input.MSG_KEY, 4) + LE(vk, 2) + LE(scan, 2) + [if down then 1 else 0, U8(mods)]
  }

  /** The relative-move message: magic and the two deltas as int16. */
  function RelBuf(dx: int, dy: int): (r: seq<byte>)
    ensures |r| == 8
  {
    LE(Input.MSG_MOUSE_MOVE_REL, 4) + LE(FromInt16(dx), 2) + LE(FromInt16(dy), 2)
  }

  /** The absolute-move message: magic and the two float32 coordinates. */
  function AbsBuf(x: nat, y: nat): (r: seq<byte>)
    ensures |r| == 12
  {
    LE(Input.MSG_MOUSE_MOVE, 4) + LE(x, 4) + LE(y, 4)
  }

  lemma MagicOf(m: nat, rest: seq<byte>)
    requires m < TWO32
    ensures var d := LE(m, 4) + rest; |d| >= 4 && Input.Magic(d) == m
  {
    var d := LE(m, 4) + rest;
    assert d[..4] == LE(m, 4);
    Pow256Values();
    ReadLEOfLE(m, 4);
  }

  lemma FieldOf(a: seq<byte>, x: nat, n: nat, b: seq<byte>)
    requires x < Pow256(n)
    ensures var d := a + LE(x, n) + b; ReadLE(d[|a|..|a| + n]) == x
  {
    var d := a + LE(x, n) + b;
    assert d[|a|..|a| + n] == LE(x, n);
    ReadLEOfLE(x, n);
  }

  /** The server decodes a button message into the button and action sent. */
  lemma BtnRoundTrip(btn: nat, down: bool)
    requires btn < 256
    ensures Input.Decode(BtnBuf(btn, down)) == Some(Input.MouseBtn(btn, if down then 1 else 0))
  {
    MagicOf(Input.MSG_MOUSE_BTN, [U8(btn), if down then 1 else 0]);
  }

  /** The server decodes a key message into the key code, scan code and action sent. */
  lemma KeyRoundTrip(vk: nat, scan: nat, down: bool, mods: nat)
    requires vk < TWO16 && scan < TWO16
    ensures Input.Decode(KeyBuf(vk, scan, down, mods)) == Some(Input.KeyMsg(vk, scan, if down then 1 else 0))
  {
    KeyFields(vk, scan, down, mods);
  }

  lemma KeyFields(vk: nat, scan: nat, down: bool, mods: nat)
    requires vk < TWO16 && scan < TWO16
    ensures var d := KeyBuf(vk, scan, down, mods);
      Input.Magic(d) == Input.MSG_KEY && Input.U16(d, 4) == vk && Input.U16(d, 6) == scan &&
      d[8] == if down then 1 else 0
  {
    Pow256Values();
    var tail: seq<byte> := [if down then 1 else 0, U8(mods)];
    var d := KeyBuf(vk, scan, down, mods);
    MagicOf(Input.MSG_KEY, LE(vk, 2) + LE(scan, 2) + tail);
    assert d == LE(Input.MSG_KEY, 4) + (LE(vk, 2) + LE(scan, 2) + tail);
    FieldOf(LE(Input.MSG_KEY, 4), vk, 2, LE(scan, 2) + tail);
    assert d == LE(Input.MSG_KEY, 4) + LE(vk, 2) + (LE(scan, 2) + tail);
    FieldOf(LE(Input.MSG_KEY, 4) + LE(vk, 2), scan, 2, tail);
  }

  /** A pair of int16 fields after a magic reads back as the two values written. */
  lemma PairRoundTrip(m: nat, dx: int, dy: int)
    requires m < TWO32
    requires -32768 <= dx < 32768 && -32768 <= dy < 32768
    ensures var d := LE(m, 4) + LE(FromInt16(dx), 2) + LE(FromInt16(dy), 2);
      Input.Magic(d) == m && Input.I16(d, 4) == dx && Input.I16(d, 6) == dy
  {
    Pow256Values();
    var a, b := FromInt16(dx), FromInt16(dy);
    var d := LE(m, 4) + LE(a, 2) + LE(b, 2);
    MagicOf(m, LE(a, 2) + LE(b, 2));
    assert d == LE(m, 4) + (LE(a, 2) + LE(b, 2));
    FieldOf(LE(m, 4), a, 2, LE(b, 2));
    FieldOf(LE(m, 4) + LE(a, 2), b, 2, []);
    assert d == LE(m, 4) + LE(a, 2) + LE(b, 2) + [];
  }

  /** The server decodes a wheel message into the deltas sent, when they fit in int16. */
  lemma WheelRoundTrip(dx: int, dy: int)
    requires -32768 <= dx < 32768 && -32768 <= dy < 32768
    ensures Input.Decode(WheelBuf(dx, dy)) == Some(Input.MouseWheel(dx, dy))
  {
    PairRoundTrip(Input.MSG_MOUSE_WHEEL, dx, dy);
  }

  /** The server decodes a relative move into the deltas sent, when they fit in int16. */
  lemma RelRoundTrip(dx: int, dy: int)
    requires -32768 <= dx < 32768 && -32768 <= dy < 32768
    ensures Input.Decode(RelBuf(dx, dy)) == Some(Input.MouseMoveRel(dx, dy))
  {
    PairRoundTrip(Input.MSG_MOUSE_MOVE_REL, dx, dy);
  }

  /** The server decodes an absolute move into the two coordinates sent. */
  lemma AbsRoundTrip(x: nat, y: nat)
    requires x < TWO32 && y < TWO32
    ensures Input.Decode(AbsBuf(x, y)) == Some(Input.MouseMove(x, y))
  {
    AbsFields(x, y);
  }

  lemma AbsFields(x: nat, y: nat)
    requires x < TWO32 && y < TWO32
    ensures var d := AbsBuf(x, y);
      Input.Magic(d) == Input.MSG_MOUSE_MOVE && Input.U32(d, 4) == x && Input.U32(d, 8) == y
  {
    var d := AbsBuf(x, y);
    var m := LE(Input.MSG_MOUSE_MOVE, 4);
    MagicOf(Input.MSG_MOUSE_MOVE, LE(x, 4) + LE(y, 4));
    assert d == m + (LE(x, 4) + LE(y, 4));
    Word(m, x, LE(y, 4));
    Word(m + LE(x, 4), y, []);
    assert d == m + LE(x, 4) + LE(y, 4) + [];
  }

  /** A 4-byte field reads back as the value written. */
  lemma Word(a: seq<byte>, x: nat, b: seq<byte>)
    requires x < TWO32
    ensures var d := a + LE(x, 4) + b; ReadLE(d[|a|..|a| + 4]) == x
  {
    Pow256Four();
    FieldOf(a, x, 4, b);
  }

  lemma Pow256Four()
    ensures Pow256(4) == TWO32
  {
    assert Pow256(2) == 256 * 256;
  }

  // ---------------------------------------------------------------------
  // Pending moves and the key handler
  // ---------------------------------------------------------------------

  /** `Math.max(-32768, Math.min(32767, v))`. */
  function Clamp16(v: int): (r: int)
    ensures -32768 <= r <= 32767
    ensures -32768 <= v <= 32767 ==> r == v
  {
    Max(-32768, Min(32767, v))
  }

  /** A normalised pointer position, as its two float32 bit patterns. */
  datatype Pos = Pos(x: nat, y: nat)

  /** The modifier keys of a key event. */
  datatype Mods = Mods(ctrl: bool, alt: bool, shift: bool, meta: bool)

  /** What the page answers while a key is handled. */
  datatype KeyEnv = KeyEnv(
    focused: bool,        // an input, textarea or editable element has focus
    clipboardSync: bool,  // `S.clipboardSyncEnabled`
    hasPush: bool,        // a clipboard-push function is registered
    hasRequest: bool,     // a clipboard-request function is registered
    open: bool)           // the input channel is open

  /**
   * The messages `flush` sends for a pending relative move (dx, dy) and a
   * pending absolute position: none when it may not send, otherwise the
   * relative move if non-zero, then the absolute one if any.
   */
  function Flushed(send: bool, dx: int, dy: int, abs: Option<Pos>): (r: seq<seq<byte>>)
    ensures |r| <= 2
    ensures !send ==> r == []
    ensures send && abs.Some? ==> |r| >= 1 && r[|r| - 1] == AbsBuf(abs.value.x, abs.value.y)
    ensures send && (dx != 0 || dy != 0) ==> |r| >= 1 && r[0] == RelBuf(dx, dy)
    ensures send && dx == 0 && dy == 0 && abs.None? ==> r == []
  {
    if !send then [] else
    (if dx != 0 || dy != 0 then [RelBuf(dx, dy)] else []) +
    (if abs.Some? then [AbsBuf(abs.value.x, abs.value.y)] else [])
  }

  /** The module's state and the counters in `S.stats` it updates. */
  class InputClient {
    var controlEnabled: bool
    var pendingAbs: Option<Pos>
    var relDx: int
    var relDy: int
    var rafPending: bool           // `rafId !== null`
    var pastePending: bool         // `pendingClipboardPaste !== null`
    var keyUpQueued: bool          // `pendingClipboardPaste.keyUpQueued`
    var moves: nat
    var clicks: nat
    var keys: nat

    /** The pending relative move always fits the message's int16 fields. */
    predicate Valid()
      reads this
    {
      -32768 <= relDx <= 32767 && -32768 <= relDy <= 32767 &&
      (pendingAbs.Some? ==> pendingAbs.value.x < TWO32 && pendingAbs.value.y < TWO32)
    }

    constructor()
      ensures Valid() && !controlEnabled && pendingAbs == None && relDx == 0 && relDy == 0
      ensures !rafPending && !pastePending && moves == 0 && clicks == 0 && keys == 0
    {
      controlEnabled := false;
      pendingAbs := None;
      relDx, relDy := 0, 0;
      rafPending := false;
      pastePending, keyUpQueued := false, false;
      moves, clicks, keys := 0, 0, 0;
    }

    /** `sendNow('btn', ...)`: sent only while control is enabled and the channel is open. */
    method SendBtn(btn: nat, down: bool, open: bool) returns (out: seq<seq<byte>>)
      modifies this
      ensures out == if controlEnabled && open then [BtnBuf(btn, down)] else []
      ensures clicks == old(clicks) + |out|
      ensures controlEnabled == old(controlEnabled) && pendingAbs == old(pendingAbs) && relDx == old(relDx)
      ensures relDy == old(relDy) && rafPending == old(rafPending) && pastePending == old(pastePending)
      ensures keyUpQueued == old(keyUpQueued) && moves == old(moves) && keys == old(keys)
    {
      out := [];
      if controlEnabled && open {
        clicks := clicks + 1;
        out := [BtnBuf(btn, down)];
      }
    }

    /** `sendNow('key', vk, 0, down, mods)`. */
    method SendKey(vk: nat, down: bool, mods: nat, open: bool) returns (out: seq<seq<byte>>)
      modifies this
      ensures out == if controlEnabled && open then [KeyBuf(vk, 0, down, mods)] else []
      ensures keys == old(keys) + |out|
      ensures controlEnabled == old(controlEnabled) && pendingAbs == old(pendingAbs) && relDx == old(relDx)
      ensures relDy == old(relDy) && rafPending == old(rafPending) && pastePending == old(pastePending)
      ensures keyUpQueued == old(keyUpQueued) && moves == old(moves) && clicks == old(clicks)
    {
      out := [];
      if controlEnabled && open {
        keys := keys + 1;
        out := [KeyBuf(vk, 0, down, mods)];
      }
    }

    /** `queueRelMove`: the deltas accumulate, each axis clamped to int16, and a flush is scheduled. */
    method QueueRelMove(dx: int, dy: int)
      requires Valid()
      modifies this
      ensures Valid()
      ensures relDx == Clamp16(old(relDx) + dx) && relDy == Clamp16(old(relDy) + dy) && rafPending
      ensures controlEnabled == old(controlEnabled) && pendingAbs == old(pendingAbs)
      ensures pastePending == old(pastePending) && keyUpQueued == old(keyUpQueued)
      ensures moves == old(moves) && clicks == old(clicks) && keys == old(keys)
    {
      relDx := Clamp16(relDx + dx);
      relDy := Clamp16(relDy + dy);
      rafPending := true;
    }

    /** `queueAbsMove`: only the latest absolute position is kept. */
    method QueueAbsMove(p: Pos)
      requires Valid() && p.x < TWO32 && p.y < TWO32
      modifies this
      ensures Valid()
      ensures pendingAbs == Some(p) && rafPending
      ensures controlEnabled == old(controlEnabled) && relDx == old(relDx) && relDy == old(relDy)
      ensures pastePending == old(pastePending) && keyUpQueued == old(keyUpQueued)
      ensures moves == old(moves) && clicks == old(clicks) && keys == old(keys)
    {
      pendingAbs := Some(p);
      rafPending := true;
    }

    /**
     * `flush`: the pending moves are discarded when control is off or the
     * channel is closed; otherwise the relative move (if non-zero) is sent
     * before the absolute one (if any), and both are cleared.
     */
    method Flush(open: bool) returns (out: seq<seq<byte>>)
      requires Valid()
      modifies this
      ensures Valid() && !rafPending && pendingAbs == None && relDx == 0 && relDy == 0
      ensures out == Flushed(controlEnabled && open, old(relDx), old(relDy), old(pendingAbs))
      ensures moves == old(moves) + |out|
      ensures controlEnabled == old(controlEnabled) && pastePending == old(pastePending)
      ensures keyUpQueued == old(keyUpQueued) && clicks == old(clicks) && keys == old(keys)
    {
      rafPending := false;
      out := [];
      if !controlEnabled || !open {
        pendingAbs := None;
        relDx, relDy := 0, 0;
        return;
      }
      if relDx != 0 || relDy != 0 {
        moves := moves + 1;
        out := out + [RelBuf(relDx, relDy)];
        relDx, relDy := 0, 0;
      }
      if pendingAbs.Some? {
        moves := moves + 1;
        out := out + [AbsBuf(pendingAbs.value.x, pendingAbs.value.y)];
        pendingAbs := None;
      }
    }

    /**
     * `handlers.move`: in relative mode with the pointer locked, a non-zero
     * rounded movement is queued; in absolute mode, the position on the
     * video (`pos`, none when outside it) is queued. In relative mode
     * without the pointer lock, and while control is off, nothing changes.
     */
    method MouseMoved(relativeMode: bool, locked: bool, dx: int, dy: int, pos: Option<Pos>)
      requires Valid() && (pos.Some? ==> pos.value.x < TWO32 && pos.value.y < TWO32)
      modifies this
      ensures Valid()
      ensures var rel := controlEnabled && relativeMode && locked && (dx != 0 || dy != 0);
        var abs := controlEnabled && !relativeMode && pos.Some?;
        && relDx == (if rel then Clamp16(old(relDx) + dx) else old(relDx))
        && relDy == (if rel then Clamp16(old(relDy) + dy) else old(relDy))
        && pendingAbs == (if abs then pos else old(pendingAbs))
        && rafPending == (old(rafPending) || rel || abs)
      ensures controlEnabled == old(controlEnabled) && pastePending == old(pastePending) && keyUpQueued == old(keyUpQueued)
      ensures moves == old(moves) && clicks == old(clicks) && keys == old(keys)
    {
      if !controlEnabled {
        return;
      }
      if relativeMode && locked {
        if dx != 0 || dy != 0 {
          QueueRelMove(dx, dy);
        }
      } else if !relativeMode {
        if pos.Some? {
          QueueAbsMove(pos.value);
        }
      }
    }

    /**
     * `handlers.down`/`handlers.up`: a scheduled flush is run first, so
     * pending moves reach the server before the button; afterwards nothing
     * is pending. Nothing happens while control is off.
     */
    method MouseButtonEvent(button: int, down: bool, open: bool) returns (out: seq<seq<byte>>)
      requires Valid()
      modifies this
      ensures Valid()
      ensures !old(controlEnabled) ==>
        && out == [] && relDx == old(relDx) && relDy == old(relDy) && pendingAbs == old(pendingAbs)
        && rafPending == old(rafPending) && clicks == old(clicks) && moves == old(moves)
      ensures old(controlEnabled) ==>
        var flushed := if old(rafPending) then Flushed(open, old(relDx), old(relDy), old(pendingAbs)) else [];
        && out == flushed + (if open then [BtnBuf(ButtonOf(button), down)] else [])
        && moves == old(moves) + |flushed| && clicks == old(clicks) + (if open then 1 else 0)
        && !rafPending
        && (old(rafPending) ==> relDx == 0 && relDy == 0 && pendingAbs == None)
        && (!old(rafPending) ==> relDx == old(relDx) && relDy == old(relDy) && pendingAbs == old(pendingAbs))
      ensures controlEnabled == old(controlEnabled) && pastePending == old(pastePending)
      ensures keyUpQueued == old(keyUpQueued) && keys == old(keys)
    {
      out := [];
      if !controlEnabled {
        return;
      }
      if rafPending {
        out := Flush(open);
      }
      var b := SendBtn(ButtonOf(button), down, open);
      out := out + b;
    }

    /** `handlers.wheel`. */
    method WheelEvent(dx: int, dy: int, open: bool) returns (out: seq<seq<byte>>)
      ensures out == if controlEnabled && open then [WheelBuf(dx, dy)] else []
    {
      out := [];
      if controlEnabled && open {
        out := [WheelBuf(dx, dy)];
      }
    }

    /**
     * `handleKey`: ignored while control is off or an input element has
     * focus, or when the code is unknown. Ctrl+V with clipboard sync holds
     * its key-down until the clipboard push settles and remembers a key-up
     * that arrives meanwhile; Ctrl+C sends the key-down and asks for the
     * remote clipboard. Any other key is sent as it is.
     */
    method HandleKey(code: string, down: bool, m: Mods, env: KeyEnv) returns (out: seq<seq<byte>>, pushStarted: bool, copyRequested: bool)
      modifies this
      ensures pushStarted ==> out == [] && pastePending && !keyUpQueued && !old(pastePending)
      ensures var vk := CodeToVK(code);
        var mods := Modifiers(m.ctrl, m.alt, m.shift, m.meta);
        var combo := down && m.ctrl && !m.alt && !m.shift && !m.meta;
        if !controlEnabled || env.focused || vk == 0 then
          out == [] && !pushStarted && !copyRequested && pastePending == old(pastePending) && keyUpQueued == old(keyUpQueued)
        else if !down && code == "KeyV" && old(pastePending) then
          out == [] && !pushStarted && !copyRequested && pastePending && keyUpQueued
        else if combo && code == "KeyV" && env.clipboardSync && env.hasPush && !old(pastePending) then
          pushStarted && !copyRequested
        else
          !pushStarted && pastePending == old(pastePending) && keyUpQueued == old(keyUpQueued) &&
          out == (if env.open then [KeyBuf(vk, 0, down, mods)] else []) &&
          copyRequested == (combo && code == "KeyC" && env.clipboardSync && env.hasRequest)
      ensures controlEnabled == old(controlEnabled) && pendingAbs == old(pendingAbs)
      ensures relDx == old(relDx) && relDy == old(relDy) && rafPending == old(rafPending)
      ensures moves == old(moves) && clicks == old(clicks) && keys == old(keys) + |out|
    {
      out, pushStarted, copyRequested := [], false, false;
      if !controlEnabled || env.focused {
        return;
      }
      var mods := Modifiers(m.ctrl, m.alt, m.shift, m.meta);
      var vk := CodeToVK(code);
      if vk == 0 {
        return;
      }
      if !down && code == "KeyV" && pastePending {
        keyUpQueued := true;
        return;
      }
      if down && m.ctrl && !m.alt && !m.shift && !m.meta {
        if code == "KeyV" {
          if env.clipboardSync && env.hasPush && !pastePending {
            pastePending, keyUpQueued := true, false;
            pushStarted := true;
            return;
          }
          out := SendKey(vk, true, mods, env.open);
          return;
        }
        if code == "KeyC" {
          out := SendKey(vk, true, mods, env.open);
          copyRequested := env.clipboardSync && env.hasRequest;
          return;
        }
      }
      out := SendKey(vk, down, mods, env.open);
    }

    /**
     * The held Ctrl+V once the clipboard push settles: the key-down is sent,
     * then the key-up if one arrived meanwhile, and the paste is no longer
     * pending.
     */
    method PasteSettled(vk: nat, mods: nat, open: bool) returns (out: seq<seq<byte>>)
      modifies this
      ensures !pastePending
      ensures out == if controlEnabled && open then
        [KeyBuf(vk, 0, true, mods)] + (if old(pastePending) && old(keyUpQueued) then [KeyBuf(vk, 0, false, mods)] else [])
        else []
      ensures controlEnabled == old(controlEnabled) && pendingAbs == old(pendingAbs)
      ensures relDx == old(relDx) && relDy == old(relDy) && rafPending == old(rafPending)
    {
      out := SendKey(vk, true, mods, open);
      if pastePending && keyUpQueued {
        var up := SendKey(vk, false, mods, open);
        out := out + up;
      }
      pastePending := false;
    }

    /**
     * `toggleControl`: nothing happens when the state is unchanged or there
     * is no canvas; disabling drops the pending moves and the scheduled flush.
     */
    method ToggleControl(enable: bool, hasCanvas: bool)
      requires Valid()
      modifies this
      ensures Valid()
      ensures enable == old(controlEnabled) || !hasCanvas ==>
        controlEnabled == old(controlEnabled) && rafPending == old(rafPending) && pendingAbs == old(pendingAbs) &&
        relDx == old(relDx) && relDy == old(relDy)
      ensures enable != old(controlEnabled) && hasCanvas ==> controlEnabled == enable
      ensures enable != old(controlEnabled) && hasCanvas && !enable ==>
        !rafPending && pendingAbs == None && relDx == 0 && relDy == 0
      ensures enable != old(controlEnabled) && hasCanvas && enable ==>
        rafPending == old(rafPending) && pendingAbs == old(pendingAbs) && relDx == old(relDx) && relDy == old(relDy)
    {
      if enable == controlEnabled || !hasCanvas {
        return;
      }
      controlEnabled := enable;
      if !enable {
        rafPending := false;
        pendingAbs := None;
        relDx, relDy := 0, 0;
      }
    }
  }
}
