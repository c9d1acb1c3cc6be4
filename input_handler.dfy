/**
 * The server's `InputHandler` (src/input.cpp, include/input.hpp): it decodes
 * the input channel's messages, applies per-second rate limits, blocks the
 * Windows keys and Ctrl+Alt+Del, and turns each accepted event into an
 * injected OS input.
 *
 * The injected inputs are values (`Inject`); whether `SendInput` succeeded,
 * the clock and `MapVirtualKey` are inputs (`Env`). The pointer position of
 * an absolute move is kept as the two float bit patterns of the message,
 * because its scaling to screen coordinates is floating point.
 */
module Input {
  import opened Bytes

  // ---------------------------------------------------------------------
  // Message magics and packed sizes
  // ---------------------------------------------------------------------

  const MSG_MOUSE_MOVE: nat := 0x4D4F5645
  const MSG_MOUSE_MOVE_REL: nat := 0x4D4F5652
  const MSG_MOUSE_BTN: nat := 0x4D42544E
  const MSG_MOUSE_WHEEL: nat := 0x4D57484C
  const MSG_KEY: nat := 0x4B455920

  /** `sizeof` of each packed message struct, by magic. */
  const SIZES: map<nat, nat> := map[
    MSG_MOUSE_MOVE := 12, MSG_MOUSE_MOVE_REL := 8, MSG_MOUSE_BTN := 6,
    MSG_MOUSE_WHEEL := 8, MSG_KEY := 9]

  // ---------------------------------------------------------------------
  // Windows constants (winuser.h)
  // ---------------------------------------------------------------------

  const VK_BACK: nat := 0x08
  const VK_TAB: nat := 0x09
  const VK_RETURN: nat := 0x0D
  const VK_SHIFT: nat := 0x10
  const VK_CONTROL: nat := 0x11
  const VK_MENU: nat := 0x12
  const VK_PAUSE: nat := 0x13
  const VK_CAPITAL: nat := 0x14
  const VK_ESCAPE: nat := 0x1B
  const VK_SPACE: nat := 0x20
  const VK_PRIOR: nat := 0x21
  const VK_NEXT: nat := 0x22
  const VK_END: nat := 0x23
  const VK_HOME: nat := 0x24
  const VK_LEFT: nat := 0x25
  const VK_UP: nat := 0x26
  const VK_RIGHT: nat := 0x27
  const VK_DOWN: nat := 0x28
  const VK_SNAPSHOT: nat := 0x2C
  const VK_INSERT: nat := 0x2D
  const VK_DELETE: nat := 0x2E
  const VK_LWIN: nat := 0x5B
  const VK_RWIN: nat := 0x5C
  const VK_APPS: nat := 0x5D
  const VK_NUMPAD0: nat := 0x60
  const VK_MULTIPLY: nat := 0x6A
  const VK_ADD: nat := 0x6B
  const VK_SUBTRACT: nat := 0x6D
  const VK_DECIMAL: nat := 0x6E
  const VK_DIVIDE: nat := 0x6F
  const VK_F1: nat := 0x70
  const VK_NUMLOCK: nat := 0x90
  const VK_SCROLL: nat := 0x91
  const VK_LCONTROL: nat := 0xA2
  const VK_RCONTROL: nat := 0xA3
  const VK_LMENU: nat := 0xA4
  const VK_RMENU: nat := 0xA5
  const VK_OEM_1: nat := 0xBA
  const VK_OEM_PLUS: nat := 0xBB
  const VK_OEM_COMMA: nat := 0xBC
  const VK_OEM_MINUS: nat := 0xBD
  const VK_OEM_PERIOD: nat := 0xBE
  const VK_OEM_2: nat := 0xBF
  const VK_OEM_3: nat := 0xC0
  const VK_OEM_4: nat := 0xDB
  const VK_OEM_5: nat := 0xDC
  const VK_OEM_6: nat := 0xDD
  const VK_OEM_7: nat := 0xDE

  const MOUSEEVENTF_LEFTDOWN: nat := 0x0002
  const MOUSEEVENTF_LEFTUP: nat := 0x0004
  const MOUSEEVENTF_RIGHTDOWN: nat := 0x0008
  const MOUSEEVENTF_RIGHTUP: nat := 0x0010
  const MOUSEEVENTF_MIDDLEDOWN: nat := 0x0020
  const MOUSEEVENTF_MIDDLEUP: nat := 0x0040
  const MOUSEEVENTF_XDOWN: nat := 0x0080
  const MOUSEEVENTF_XUP: nat := 0x0100
  const XBUTTON1: nat := 1
  const XBUTTON2: nat := 2
  const WHEEL_DELTA: int := 120

  /** The fixed part of `JsKeyToVK`'s table: JS key code to virtual key. */
  function KeyTable(k: nat): Option<nat>
  {
    match k
    case 8 => Some(VK_BACK)
    case 9 => Some(VK_TAB)
    case 13 => Some(VK_RETURN)
    case 16 => Some(VK_SHIFT)
    case 17 => Some(VK_CONTROL)
    case 18 => Some(VK_MENU)
    case 19 => Some(VK_PAUSE)
    case 20 => Some(VK_CAPITAL)
    case 27 => Some(VK_ESCAPE)
    case 32 => Some(VK_SPACE)
    case 33 => Some(VK_PRIOR)
    case 34 => Some(VK_NEXT)
    case 35 => Some(VK_END)
    case 36 => Some(VK_HOME)
    case 37 => Some(VK_LEFT)
    case 38 => Some(VK_UP)
    case 39 => Some(VK_RIGHT)
    case 40 => Some(VK_DOWN)
    case 44 => Some(VK_SNAPSHOT)
    case 45 => Some(VK_INSERT)
    case 46 => Some(VK_DELETE)
    case 91 => Some(VK_LWIN)
    case 92 => Some(VK_RWIN)
    case 96 => Some(VK_NUMPAD0)
    case 97 => Some(0x61)
    case 98 => Some(0x62)
    case 99 => Some(0x63)
    case 100 => Some(0x64)
    case 101 => Some(0x65)
    case 102 => Some(0x66)
    case 103 => Some(0x67)
    case 104 => Some(0x68)
    case 105 => Some(0x69)
    case 106 => Some(VK_MULTIPLY)
    case 107 => Some(VK_ADD)
    case 109 => Some(VK_SUBTRACT)
    case 110 => Some(VK_DECIMAL)
    case 111 => Some(VK_DIVIDE)
    case 112 => Some(VK_F1)
    case 113 => Some(0x71)
    case 114 => Some(0x72)
    case 115 => Some(0x73)
    case 116 => Some(0x74)
    case 117 => Some(0x75)
    case 118 => Some(0x76)
    case 119 => Some(0x77)
    case 120 => Some(0x78)
    case 121 => Some(0x79)
    case 122 => Some(0x7A)
    case 123 => Some(0x7B)
    case 144 => Some(VK_NUMLOCK)
    case 145 => Some(VK_SCROLL)
    case 186 => Some(VK_OEM_1)
    case 187 => Some(VK_OEM_PLUS)
    case 188 => Some(VK_OEM_COMMA)
    case 189 => Some(VK_OEM_MINUS)
    case 190 => Some(VK_OEM_PERIOD)
    case 191 => Some(VK_OEM_2)
    case 192 => Some(VK_OEM_3)
    case 219 => Some(VK_OEM_4)
    case 220 => Some(VK_OEM_5)
    case 221 => Some(VK_OEM_6)
    case 222 => Some(VK_OEM_7)
    case _ => None
  }

  /** The keys injected with the extended-key flag. */
  const EXTENDED: set<nat> := {
    VK_INSERT, VK_DELETE, VK_HOME, VK_END, VK_PRIOR, VK_NEXT, VK_LEFT, VK_RIGHT,
    VK_UP, VK_DOWN, VK_LWIN, VK_RWIN, VK_APPS, VK_DIVIDE, VK_NUMLOCK}

  // ---------------------------------------------------------------------
  // Key codes
  // ---------------------------------------------------------------------

  /** Every entry of the table maps a JS key code to the virtual key of the same number. */
  lemma TableIsIdentity(k: nat)
    ensures KeyTable(k).Some? ==> KeyTable(k).value == k
  {
  }

  /**
   * `JsKeyToVK`: letters and digits map to themselves, the table's codes
   * through the table, anything else to 0 (unknown). A JS key code and its
   * virtual key are always the same number.
   */
  function JsKeyToVK(k: nat): (vk: nat)
    ensures vk != 0 <==> (65 <= k <= 90 || 48 <= k <= 57 || KeyTable(k).Some?)
    ensures vk != 0 ==> vk == k
  {
    TableIsIdentity(k);
    if (65 <= k <= 90) || (48 <= k <= 57) then k
    else if KeyTable(k).Some? then KeyTable(k).value
    else 0
  }

  /** `IsExt`: whether the key is injected with `KEYEVENTF_EXTENDEDKEY`. */
  predicate IsExt(vk: nat)
  {
    vk in EXTENDED
  }

  /**
   * Every extended key but the context-menu key (VK_APPS) is reachable from
   * its own JS key code; JS code 93 is not in the table, so VK_APPS never
   * reaches `SendInput` and its extended flag is never used.
   */
  lemma ExtendedReachable()
    ensures forall vk | vk in EXTENDED && vk != VK_APPS :: JsKeyToVK(vk) == vk
    ensures JsKeyToVK(VK_APPS) == 0
  {
  }

  // ---------------------------------------------------------------------
  // Decoding a message
  // ---------------------------------------------------------------------

  /** The packed message structs, field by field. */
  datatype Msg =
    | MouseMove(xBits: nat, yBits: nat)          // two little-endian float32 bit patterns
    | MouseMoveRel(dx: int, dy: int)
    | MouseBtn(button: nat, action: nat)
    | MouseWheel(deltaX: int, deltaY: int)
    | KeyMsg(keyCode: nat, scanCode: nat, action: nat)

  function Magic(data: seq<byte>): nat
    requires |data| >= 4
  {
    ReadLE(data[..4])
  }

  function U16(data: seq<byte>, at: nat): (r: nat)
    requires at + 2 <= |data|
    ensures r < TWO16
  {
    Pow256Values();
    ReadLE(data[at..at + 2])
  }

  function I16(data: seq<byte>, at: nat): int
    requires at + 2 <= |data|
  {
    ToInt16(U16(data, at))
  }

  function U32(data: seq<byte>, at: nat): nat
    requires at + 4 <= |data|
  {
    ReadLE(data[at..at + 4])
  }

  /**
   * The message `HandleMessage` acts on: none when it is shorter than the
   * 4-byte magic, the magic is unknown, or it is shorter than its struct.
   */
  function Decode(data: seq<byte>): (r: Option<Msg>)
    ensures r.Some? <==> |data| >= 4 && Magic(data) in SIZES && |data| >= SIZES[Magic(data)]
  {
    if |data| < 4 then None
    else
      var magic := Magic(data);
      if magic == MSG_MOUSE_MOVE && |data| >= 12 then Some(MouseMove(U32(data, 4), U32(data, 8)))
      else if magic == MSG_MOUSE_MOVE_REL && |data| >= 8 then Some(MouseMoveRel(I16(data, 4), I16(data, 6)))
      else if magic == MSG_MOUSE_BTN && |data| >= 6 then Some(MouseBtn(data[4] as nat, data[5] as nat))
      else if magic == MSG_MOUSE_WHEEL && |data| >= 8 then Some(MouseWheel(I16(data, 4), I16(data, 6)))
      else if magic == MSG_KEY && |data| >= 9 then Some(KeyMsg(U16(data, 4), U16(data, 6), data[8] as nat))
      else None
  }

  // ---------------------------------------------------------------------
  // Handler state and its rules
  // ---------------------------------------------------------------------

  /** The handler's fields (the monitor bounds are not part of this model). */
  datatype State = State(
    enabled: bool, ctrlDown: bool, altDown: bool,
    rateStart: int, moveCnt: nat, clickCnt: nat, keyCnt: nat,
    lastCur: nat,
    totalMoves: nat, totalClicks: nat, totalKeys: nat,
    droppedMoves: nat, droppedClicks: nat, droppedKeys: nat, blockedKeys: nat)

  const CURSOR_DEFAULT: nat := 0
  const CURSOR_NONE: nat := 13
  const CURSOR_CUSTOM: nat := 255
  const STD_CURSORS: nat := 13

  /** The handler as constructed: disabled, window at 0, cursor `CURSOR_DEFAULT`. */
  function Initial(): State
  {
    State(false, false, false, 0, 0, 0, 0, CURSOR_DEFAULT, 0, 0, 0, 0, 0, 0, 0)
  }

  /** The three budgets: moves, clicks and wheel turns, key events. */
  datatype Budget = Moves | Clicks | Keys

  /** `MAX_MV`, `MAX_CL`, `MAX_KY`: events allowed per one-second window. */
  function Limit(b: Budget): nat
  {
    match b
    case Moves => 500
    case Clicks => 50
    case Keys => 100
  }

  function Used(v: State, b: Budget): nat
  {
    match b
    case Moves => v.moveCnt
    case Clicks => v.clickCnt
    case Keys => v.keyCnt
  }

  function Dropped(v: State, b: Budget): nat
  {
    match b
    case Moves => v.droppedMoves
    case Clicks => v.droppedClicks
    case Keys => v.droppedKeys
  }

  /** `ResetWin`: once a second or more has passed since the window start, a new window begins. */
  function ResetWin(v: State, now: int): (r: State)
    ensures now - v.rateStart >= 1000 ==> r.rateStart == now && Used(r, Moves) == Used(r, Clicks) == Used(r, Keys) == 0
    ensures now - v.rateStart < 1000 ==> r == v
  {
    if now - v.rateStart >= 1000 then v.(rateStart := now, moveCnt := 0, clickCnt := 0, keyCnt := 0) else v
  }

  /** The budget's counter after one more event (`fetch_add(1)`, which counts rejected events too). */
  function Bump(v: State, b: Budget): State
  {
    match b
    case Moves => v.(moveCnt := v.moveCnt + 1)
    case Clicks => v.(clickCnt := v.clickCnt + 1)
    case Keys => v.(keyCnt := v.keyCnt + 1)
  }

  function CountDrop(v: State, b: Budget): State
  {
    match b
    case Moves => v.(droppedMoves := v.droppedMoves + 1)
    case Clicks => v.(droppedClicks := v.droppedClicks + 1)
    case Keys => v.(droppedKeys := v.droppedKeys + 1)
  }

  /** The state after a rate-limit check, and whether the event passed. */
  datatype Admission = Admission(v: State, pass: bool)

  /**
   * `ChkLim`: the window is renewed if due, the counter always rises by
   * one, and the event passes iff the counter was below the limit; a
   * rejection is counted in the budget's dropped counter.
   */
  function ChkLim(v: State, b: Budget, now: int): (r: Admission)
    ensures r.pass <==> Used(ResetWin(v, now), b) < Limit(b)
    ensures Used(r.v, b) == Used(ResetWin(v, now), b) + 1
    ensures Dropped(r.v, b) == Dropped(v, b) + (if r.pass then 0 else 1)
  {
    var w := Bump(ResetWin(v, now), b);
    if Used(ResetWin(v, now), b) >= Limit(b) then Admission(CountDrop(w, b), false) else Admission(w, true)
  }

  /** The state after a run of checks of one budget. */
  function ChkAll(v: State, b: Budget, times: seq<int>): State
    decreases |times|
  {
    if |times| == 0 then v else ChkAll(ChkLim(v, b, times[0]).v, b, times[1..])
  }

  /** How many of a run of checks of one budget pass. */
  function Passes(v: State, b: Budget, times: seq<int>): nat
    decreases |times|
  {
    if |times| == 0 then 0
    else
      var a := ChkLim(v, b, times[0]);
      (if a.pass then 1 else 0) + Passes(a.v, b, times[1..])
  }

  /**
   * Within one window (every event less than a second after its start),
   * exactly min(n, limit - used) of n events pass: never more than the
   * limit per window, and none are refused while budget remains.
   */
  lemma {:induction false} WindowLimit(v: State, b: Budget, times: seq<int>)
    requires forall i | 0 <= i < |times| :: times[i] - v.rateStart < 1000
    ensures Passes(v, b, times) == Min(|times|, Max(0, Limit(b) - Used(v, b)))
    ensures ChkAll(v, b, times).rateStart == v.rateStart
    ensures Used(ChkAll(v, b, times), b) == Used(v, b) + |times|
    decreases |times|
  {
    if |times| > 0 {
      var a := ChkLim(v, b, times[0]);
      assert ResetWin(v, times[0]) == v;
      assert a.v.rateStart == v.rateStart by {
        match b
        case Moves =>
        case Clicks =>
        case Keys =>
      }
      assert forall i | 0 <= i < |times[1..]| :: times[1..][i] - a.v.rateStart < 1000 by {
        forall i | 0 <= i < |times[1..]|
          ensures times[1..][i] - a.v.rateStart < 1000
        {
          assert times[1..][i] == times[i + 1];
        }
      }
      WindowLimit(a.v, b, times[1..]);
    }
  }

  /** What the handler hands to `SendInput`. */
  datatype Inject =
    | AbsMotion(xBits: nat, yBits: nat)               // scaled to the virtual desktop by `ToAbs`
    | RelMotion(dx: int, dy: int)
    | ButtonFlags(flags: nat, mouseData: nat)
    | WheelTurn(horizontal: bool, mouseData: nat)
    | KeyStroke(vk: nat, scan: nat, keyUp: bool, extended: bool)

  /** What the OS answers while an event is handled. */
  datatype Env = Env(
    now: int,          // steady clock, in milliseconds
    sendOk: bool,      // `SendInput` injected every input
    mappedScan: nat)   // `MapVirtualKey(vk, MAPVK_VK_TO_VSC)`

  /** The state after an event, and the inputs injected for it in order. */
  datatype Outcome = Outcome(v: State, sent: seq<Inject>)

  /** `IsBlocked`: the Ctrl/Alt state follows every key event; the Windows keys and Ctrl+Alt+Del are blocked. */
  function Block(v: State, vk: nat, down: bool): (r: Admission)
    ensures r.pass <==> vk == VK_LWIN || vk == VK_RWIN || (r.v.ctrlDown && r.v.altDown && vk == VK_DELETE)
    ensures r.v.blockedKeys == v.blockedKeys + (if r.pass && down then 1 else 0)
    ensures r.v.ctrlDown == (if vk in {VK_CONTROL, VK_LCONTROL, VK_RCONTROL} then down else v.ctrlDown)
    ensures r.v.altDown == (if vk in {VK_MENU, VK_LMENU, VK_RMENU} then down else v.altDown)
  {
    var c := if vk == VK_CONTROL || vk == VK_LCONTROL || vk == VK_RCONTROL then down else v.ctrlDown;
    var a := if vk == VK_MENU || vk == VK_LMENU || vk == VK_RMENU then down else v.altDown;
    var blocked := vk == VK_LWIN || vk == VK_RWIN || (c && a && vk == VK_DELETE);
    Admission(v.(ctrlDown := c, altDown := a, blockedKeys := v.blockedKeys + (if blocked && down then 1 else 0)), blocked)
  }

  /** `MouseMove`: an enabled handler within budget injects the absolute move. */
  function OnMove(v: State, xBits: nat, yBits: nat, env: Env): (r: Outcome)
  {
    if !v.enabled then Outcome(v, [])
    else
      var a := ChkLim(v, Moves, env.now);
      if !a.pass then Outcome(a.v, [])
      else Outcome(a.v.(totalMoves := a.v.totalMoves + (if env.sendOk then 1 else 0)), [AbsMotion(xBits, yBits)])
  }

  /** `MouseMoveRel`: the budget is spent before a zero delta is ignored. */
  function OnMoveRel(v: State, dx: int, dy: int, env: Env): (r: Outcome)
  {
    if !v.enabled then Outcome(v, [])
    else
      var a := ChkLim(v, Moves, env.now);
      if !a.pass || (dx == 0 && dy == 0) then Outcome(a.v, [])
      else Outcome(a.v.(totalMoves := a.v.totalMoves + (if env.sendOk then 1 else 0)), [RelMotion(dx, dy)])
  }

  /** The `SendInput` flags for button btn (0..4) going down or up. */
  function ButtonFlag(btn: nat, down: bool): nat
    requires btn <= 4
  {
    if btn == 0 then (if down then MOUSEEVENTF_LEFTDOWN else MOUSEEVENTF_LEFTUP)
    else if btn == 1 then (if down then MOUSEEVENTF_RIGHTDOWN else MOUSEEVENTF_RIGHTUP)
    else if btn == 2 then (if down then MOUSEEVENTF_MIDDLEDOWN else MOUSEEVENTF_MIDDLEUP)
    else (if down then MOUSEEVENTF_XDOWN else MOUSEEVENTF_XUP)
  }

  /** `MouseButton`: a button above 4 is refused before the budget is touched. */
  function OnButton(v: State, btn: nat, down: bool, env: Env): (r: Outcome)
  {
    if !v.enabled || btn > 4 then Outcome(v, [])
    else
      var a := ChkLim(v, Clicks, env.now);
      if !a.pass then Outcome(a.v, [])
      else
        var data := if btn == 3 then XBUTTON1 else if btn == 4 then XBUTTON2 else 0;
        Outcome(a.v.(totalClicks := a.v.totalClicks + (if env.sendOk then 1 else 0)), [ButtonFlags(ButtonFlag(btn, down), data)])
  }

  /** C++ integer division, which truncates toward zero. */
  function Quot(a: int, b: int): (q: int)
    requires b > 0
    ensures a >= 0 ==> q == a / b
    ensures a < 0 ==> q == -((-a) / b)
  {
    if a >= 0 then a / b else -((-a) / b)
  }

  /** `(DWORD)(d * WHEEL_DELTA / 100)`: a delta in hundredths of a notch, as a 32-bit field. */
  function WheelData(d: int): nat
  {
    Wrap(Quot(d * WHEEL_DELTA, 100), 4)
  }

  /** `MouseWheel`: the vertical turn (sign flipped) first, then the horizontal one; zero axes inject nothing. */
  function OnWheel(v: State, dx: int, dy: int, env: Env): (r: Outcome)
  {
    if !v.enabled then Outcome(v, [])
    else
      var a := ChkLim(v, Clicks, env.now);
      if !a.pass then Outcome(a.v, [])
      else
        Outcome(a.v, (if dy != 0 then [WheelTurn(false, WheelData(-dy))] else []) +
                     (if dx != 0 then [WheelTurn(true, WheelData(dx))] else []))
  }

  /**
   * `Key`: within budget, an unknown JS code is dropped, a blocked key is
   * dropped (after the Ctrl/Alt state is updated), and any other key is
   * injected with the given scan code, or the mapped one when it is 0.
   */
  function OnKey(v: State, code: nat, scan: nat, down: bool, env: Env): (r: Outcome)
  {
    if !v.enabled then Outcome(v, [])
    else
      var a := ChkLim(v, Keys, env.now);
      if !a.pass then Outcome(a.v, [])
      else
        var vk := JsKeyToVK(code);
        if vk == 0 then Outcome(a.v, [])
        else
          var b := Block(a.v, vk, down);
          if b.pass then Outcome(b.v, [])
          else
            Outcome(b.v.(totalKeys := b.v.totalKeys + (if env.sendOk then 1 else 0)),
                    [KeyStroke(vk, if scan != 0 then scan else env.mappedScan, !down, IsExt(vk))])
  }

  /** The handler a decoded message goes to. */
  function Dispatch(v: State, m: Msg, env: Env): (r: Outcome)
  {
    match m
    case MouseMove(x, y) => OnMove(v, x, y, env)
    case MouseMoveRel(dx, dy) => OnMoveRel(v, dx, dy, env)
    case MouseBtn(b, act) => OnButton(v, b, act != 0, env)
    case MouseWheel(dx, dy) => OnWheel(v, dx, dy, env)
    case KeyMsg(k, s, act) => OnKey(v, k, s, act != 0, env)
  }

  /** Nothing is injected and nothing changes while the handler is disabled. */
  lemma DisabledIgnores(v: State, m: Msg, env: Env)
    requires !v.enabled
    ensures Dispatch(v, m, env) == Outcome(v, [])
  {
    match m
    case MouseMove(_, _) =>
    case MouseMoveRel(_, _) =>
    case MouseBtn(_, _) =>
    case MouseWheel(_, _) =>
    case KeyMsg(_, _, _) =>
  }

  /**
   * At most one input per event (two for a diagonal wheel turn), and only
   * when the event passed its budget: a refused event injects nothing.
   */
  lemma InjectsOnlyWithinBudget(v: State, m: Msg, env: Env)
    requires v.enabled
    ensures var r := Dispatch(v, m, env);
      |r.sent| <= 2 &&
      (|r.sent| > 0 ==> match m
        case MouseMove(_, _) => ChkLim(v, Moves, env.now).pass
        case MouseMoveRel(_, _) => ChkLim(v, Moves, env.now).pass
        case MouseBtn(b, _) => b <= 4 && ChkLim(v, Clicks, env.now).pass
        case MouseWheel(_, _) => ChkLim(v, Clicks, env.now).pass
        case KeyMsg(_, _, _) => ChkLim(v, Keys, env.now).pass)
  {
  }

  /**
   * A key is injected only if its JS code is known and it is not blocked;
   * it is then its own virtual key, up iff released, and extended iff in
   * the extended set. The Windows keys are never injected.
   */
  lemma KeyRule(v: State, code: nat, scan: nat, down: bool, env: Env)
    ensures var r := OnKey(v, code, scan, down, env);
      |r.sent| <= 1 &&
      (|r.sent| == 1 ==>
        JsKeyToVK(code) == code && code != VK_LWIN && code != VK_RWIN &&
        r.sent[0] == KeyStroke(code, if scan != 0 then scan else env.mappedScan, !down, code in EXTENDED))
  {
  }

  /** Ctrl+Alt+Del: a Delete while both Ctrl and Alt are held is blocked and, on key-down, counted. */
  lemma CtrlAltDelBlocked(v: State, scan: nat, down: bool, env: Env)
    requires v.ctrlDown && v.altDown
    ensures var r := OnKey(v, VK_DELETE, scan, down, env);
      r.sent == [] && r.v.ctrlDown && r.v.altDown
  {
  }

  /** The clipboard text size `SetClipboardText` accepts, in bytes. */
  const MAX_CLIPBOARD: nat := 1048576

  /**
   * `SetClipboardText`: empty or oversized text is refused before the
   * clipboard is opened; otherwise the result is whether the clipboard
   * calls (open, empty, convert, allocate, lock, set) all succeeded.
   */
  function SetClipboardText(text: seq<byte>, clipboardOk: bool): (ok: bool)
    ensures ok ==> 0 < |text| <= MAX_CLIPBOARD
    ensures 0 < |text| <= MAX_CLIPBOARD ==> ok == clipboardOk
  {
    if |text| == 0 then false
    else if |text| > MAX_CLIPBOARD then false
    else clipboardOk
  }

  /** What `GetCursorInfo` reports: failure, a hidden cursor, or the index of the matching standard cursor. */
  datatype CursorInfo = InfoFailed | Hidden | Showing(std: Option<nat>)

  // ---------------------------------------------------------------------
  // The handler object
  // ---------------------------------------------------------------------

  class InputHandler {
    var enabled: bool
    var ctrlDown: bool
    var altDown: bool
    var rateStart: int
    var moveCnt: nat
    var clickCnt: nat
    var keyCnt: nat
    var lastCur: nat
    var totalMoves: nat
    var totalClicks: nat
    var totalKeys: nat
    var droppedMoves: nat
    var droppedClicks: nat
    var droppedKeys: nat
    var blockedKeys: nat

    function View(): State
      reads this
    {
      State(enabled, ctrlDown, altDown, rateStart, moveCnt, clickCnt, keyCnt, lastCur,
           totalMoves, totalClicks, totalKeys, droppedMoves, droppedClicks, droppedKeys, blockedKeys)
    }

    constructor()
      ensures View() == Initial()
    {
      enabled, ctrlDown, altDown := false, false, false;
      rateStart, moveCnt, clickCnt, keyCnt := 0, 0, 0, 0;
      lastCur := CURSOR_DEFAULT;
      totalMoves, totalClicks, totalKeys := 0, 0, 0;
      droppedMoves, droppedClicks, droppedKeys := 0, 0, 0;
      blockedKeys := 0;
    }

    /** `Enable`. */
    method Enable()
      modifies this
      ensures View() == old(View()).(enabled := true)
    {
      enabled := true;
    }

    /** `ResetWin`. */
    method ResetWindow(now: int)
      modifies this
      ensures View() == ResetWin(old(View()), now)
    {
      if now - rateStart >= 1000 {
        rateStart := now;
        moveCnt, clickCnt, keyCnt := 0, 0, 0;
      }
    }

    /** `ChkLim` on one budget. */
    method Check(b: Budget, now: int) returns (pass: bool)
      modifies this
      ensures Admission(View(), pass) == ChkLim(old(View()), b, now)
    {
      ResetWindow(now);
      var c: nat;
      match b {
        case Moves => c := moveCnt; moveCnt := moveCnt + 1;
        case Clicks => c := clickCnt; clickCnt := clickCnt + 1;
        case Keys => c := keyCnt; keyCnt := keyCnt + 1;
      }
      if c >= Limit(b) {
        match b {
          case Moves => droppedMoves := droppedMoves + 1;
          case Clicks => droppedClicks := droppedClicks + 1;
          case Keys => droppedKeys := droppedKeys + 1;
        }
        return false;
      }
      return true;
    }

    /** `IsBlocked`. */
    method IsBlocked(vk: nat, down: bool) returns (blocked: bool)
      modifies this
      ensures Admission(View(), blocked) == Block(old(View()), vk, down)
    {
      if vk == VK_CONTROL || vk == VK_LCONTROL || vk == VK_RCONTROL {
        ctrlDown := down;
      }
      if vk == VK_MENU || vk == VK_LMENU || vk == VK_RMENU {
        altDown := down;
      }
      blocked := vk == VK_LWIN || vk == VK_RWIN || (ctrlDown && altDown && vk == VK_DELETE);
      if blocked && down {
        blockedKeys := blockedKeys + 1;
      }
    }

    /** `MouseMove`. */
    method MouseMove(xBits: nat, yBits: nat, env: Env) returns (sent: seq<Inject>)
      modifies this
      ensures Outcome(View(), sent) == OnMove(old(View()), xBits, yBits, env)
    {
      sent := [];
      if !enabled {
        return;
      }
      var pass := Check(Moves, env.now);
      if !pass {
        return;
      }
      sent := [AbsMotion(xBits, yBits)];
      if env.sendOk {
        totalMoves := totalMoves + 1;
      }
    }

    /** `MouseMoveRel`. */
    method MouseMoveRel(dx: int, dy: int, env: Env) returns (sent: seq<Inject>)
      modifies this
      ensures Outcome(View(), sent) == OnMoveRel(old(View()), dx, dy, env)
    {
      sent := [];
      if !enabled {
        return;
      }
      var pass := Check(Moves, env.now);
      if !pass || (dx == 0 && dy == 0) {
        return;
      }
      sent := [RelMotion(dx, dy)];
      if env.sendOk {
        totalMoves := totalMoves + 1;
      }
    }

    /** `MouseButton`. */
    method MouseButton(btn: nat, down: bool, env: Env) returns (sent: seq<Inject>)
      modifies this
      ensures Outcome(View(), sent) == OnButton(old(View()), btn, down, env)
    {
      sent := [];
      if !enabled || btn > 4 {
        return;
      }
      var pass := Check(Clicks, env.now);
      if !pass {
        return;
      }
      var data := 0;
      if btn >= 3 {
        data := if btn == 3 then XBUTTON1 else XBUTTON2;
      }
      sent := [ButtonFlags(ButtonFlag(btn, down), data)];
      if env.sendOk {
        totalClicks := totalClicks + 1;
      }
    }

    /** `MouseWheel`. */
    method MouseWheel(dx: int, dy: int, env: Env) returns (sent: seq<Inject>)
      modifies this
      ensures Outcome(View(), sent) == OnWheel(old(View()), dx, dy, env)
    {
      sent := [];
      if !enabled {
        return;
      }
      var pass := Check(Clicks, env.now);
      if !pass {
        return;
      }
      if dy != 0 {
        sent := sent + [WheelTurn(false, WheelData(-dy))];
      }
      if dx != 0 {
        sent := sent + [WheelTurn(true, WheelData(dx))];
      }
    }

    /** `Key`. */
    method Key(code: nat, scan: nat, down: bool, env: Env) returns (sent: seq<Inject>)
      modifies this
      ensures Outcome(View(), sent) == OnKey(old(View()), code, scan, down, env)
    {
      sent := [];
      if !enabled {
        return;
      }
      var pass := Check(Keys, env.now);
      if !pass {
        return;
      }
      var vk := JsKeyToVK(code);
      if vk == 0 {
        return;
      }
      var blocked := IsBlocked(vk, down);
      if blocked {
        return;
      }
      sent := [KeyStroke(vk, if scan != 0 then scan else env.mappedScan, !down, IsExt(vk))];
      if env.sendOk {
        totalKeys := totalKeys + 1;
      }
    }

    /**
     * `HandleMessage`: true iff the message was long enough for its known
     * magic, in which case it went to its handler.
     */
    method HandleMessage(data: seq<byte>, env: Env) returns (ok: bool, sent: seq<Inject>)
      modifies this
      ensures ok <==> Decode(data).Some?
      ensures ok ==> Outcome(View(), sent) == Dispatch(old(View()), Decode(data).value, env)
      ensures !ok ==> View() == old(View()) && sent == []
    {
      var m := Decode(data);
      if m.None? {
        return false, [];
      }
      match m.value {
        case MouseMove(x, y) => sent := MouseMove(x, y, env);
        case MouseMoveRel(dx, dy) => sent := MouseMoveRel(dx, dy, env);
        case MouseBtn(b, act) => sent := MouseButton(b, act != 0, env);
        case MouseWheel(dx, dy) => sent := MouseWheel(dx, dy, env);
        case KeyMsg(k, s, act) => sent := Key(k, s, act != 0, env);
      }
      ok := true;
    }

    /**
     * `GetCurrentCursor`: the cursor type now shown (a standard cursor's
     * index, `CURSOR_NONE` when hidden, `CURSOR_CUSTOM` otherwise), and
     * whether it differs from the one reported before. A failed query
     * reports `CURSOR_DEFAULT` as unchanged and keeps the last type.
     */
    method GetCurrentCursor(info: CursorInfo) returns (out: nat, changed: bool)
      requires info.Showing? && info.std.Some? ==> info.std.value < STD_CURSORS
      modifies this
      ensures info.InfoFailed? ==> out == CURSOR_DEFAULT && !changed && View() == old(View())
      ensures info.Hidden? ==> out == CURSOR_NONE
      ensures info.Showing? ==> out == (if info.std.Some? then info.std.value else CURSOR_CUSTOM)
      ensures !info.InfoFailed? ==> changed == (out != old(lastCur)) && View() == old(View()).(lastCur := out)
    {
      if info.InfoFailed? {
        return CURSOR_DEFAULT, false;
      }
      out := if info.Hidden? then CURSOR_NONE else if info.std.Some? then info.std.value else CURSOR_CUSTOM;
      changed := out != lastCur;
      lastCur := out;
    }
  }
}
