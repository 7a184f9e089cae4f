/** Value types shared by the input-state tracker, the shortcut matcher, the
    playback scheduler and the configuration: keys, axis offsets, shortcut
    patterns, controller events and recorded entries. */
module Types {

  datatype Option<+T> = None | Some(value: T)

  /** Unsigned 8-bit value (a trigger byte). */
  type U8 = x: int | 0 <= x < 0x100
  /** Unsigned 16-bit value (a gamepad button mask). */
  type U16 = x: int | 0 <= x < 0x1_0000
  /** Signed 16-bit value (a thumb-stick axis). */
  type I16 = x: int | -0x8000 <= x < 0x8000

  /** Keyboard keys. The modifiers that the pattern builder recognises are
      named; Return, Escape and KeyS appear in the built-in shortcuts; every
      other key of the host keyboard is an OtherKey with an opaque code. */
  datatype Key =
    | ControlLeft | ControlRight
    | Alt | AltGr
    | ShiftLeft | ShiftRight
    | Tab
    | MetaLeft | MetaRight
    | Return | Escape | KeyS
    | OtherKey(code: nat)

  /** The keys that set a modifier flag of a pattern instead of its key slot. */
  predicate IsModifier(k: Key)
  {
    k in {ControlLeft, ControlRight, Alt, AltGr, ShiftLeft, ShiftRight, Tab, MetaLeft, MetaRight}
  }

  /** A controller button is identified by the controller id and the button code. */
  type ButtonId = (nat, nat)

  /** Anything that can be held down: a keyboard key, a mouse button
      (0 left, 1 right, 2 middle, others as reported) or a controller button. */
  datatype AnyKey =
    | Keyboard(key: Key)
    | MouseButton(button: nat)
    | Controller(pad: nat, code: nat)

  /** An axis change. Floating-point values are modelled as reals. */
  datatype AnyOffset =
    | Mouse(x: real, y: real)
    | Wheel(dx: real, dy: real)
    | Trigger(pad: nat, l: real, r: real)
    | LeftStick(pad: nat, x: real, y: real)
    | RightStick(pad: nat, x: real, y: real)

  /** One value pair per controller slot; there are always four slots. */
  type Slots = s: seq<(real, real)> | |s| == 4
    witness [(0.0, 0.0), (0.0, 0.0), (0.0, 0.0), (0.0, 0.0)]

  const ZERO_SLOTS: Slots := [(0.0, 0.0), (0.0, 0.0), (0.0, 0.0), (0.0, 0.0)]

  /** The last known value of every axis. */
  datatype AllOffsets = AllOffsets(
    mouse: (real, real),
    wheel: (real, real),
    trigger: Slots,
    leftStick: Slots,
    rightStick: Slots)

  const ZERO_OFFSETS := AllOffsets((0.0, 0.0), (0.0, 0.0), ZERO_SLOTS, ZERO_SLOTS, ZERO_SLOTS)

  /** Events produced by the gamepad poller. Button events carry a one-bit mask. */
  datatype ControllerEvent =
    | ButtonPress(mask: nat)
    | ButtonRelease(mask: nat)
    | TriggerMove(l: real, r: real)
    | LSticksMove(x: real, y: real)
    | RSticksMove(x: real, y: real)

  /** A chord specification, and also the shape of the pattern derived from
      the held keys.
      keyOption/key:  0/None no constraint, 0/k k must be held,
                      1/None some key must be held, 1/k exactly k,
                      2/None no key may be held, 2/k k must not be held.
      btnOption/btn:  the same for controller buttons.
      Modifier and mouse flags: Some(true) held, Some(false) not held, None don't care.
      triggerL/triggerR: the left/right trigger of that controller slot must be non-zero. */
  datatype ShortCut = ShortCut(
    keyOption: nat,
    key: Option<Key>,
    btnOption: nat,
    btn: Option<ButtonId>,
    ctrl: Option<bool>,
    alt: Option<bool>,
    shift: Option<bool>,
    tab: Option<bool>,
    windows: Option<bool>,
    mouseL: Option<bool>,
    mouseR: Option<bool>,
    mouseM: Option<bool>,
    triggerL: Option<nat>,
    triggerR: Option<nat>)

  /** Contains: fires when any listed shortcut matches; Exclude: when none does. */
  datatype ShortCuts =
    | Contains(list: seq<ShortCut>)
    | Exclude(list: seq<ShortCut>)

  const SHIFT_ENTER := ShortCut(0, Some(Return), 0, None,
    Some(false), Some(false), Some(true), Some(false), Some(false), None, None, None, None, None)

  const CTRL_SHIFT_ENTER := ShortCut(0, Some(Return), 0, None,
    Some(true), Some(false), Some(true), Some(false), Some(false), None, None, None, None, None)

  const ESCAPE := ShortCut(0, Some(Escape), 0, None,
    Some(false), Some(false), Some(false), Some(false), Some(false), None, None, None, None, None)

  const SHIFT_ESCAPE := ShortCut(0, Some(Escape), 0, None,
    Some(false), Some(false), Some(true), Some(false), Some(false), None, None, None, None, None)

  const CTRL_ESCAPE := ShortCut(0, Some(Escape), 0, None,
    Some(true), Some(false), Some(false), Some(false), Some(false), None, None, None, None, None)

  const CTRL_ENTER := ShortCut(0, Some(Return), 0, None,
    Some(true), Some(false), Some(false), Some(false), Some(false), None, None, None, None, None)

  const CTRL_RIGHT_S := ShortCut(0, Some(KeyS), 0, None,
    Some(true), Some(false), Some(true), Some(false), Some(false), None, Some(true), None, None, None)

  /** Matches whatever is held. */
  const ANY := ShortCut(0, None, 0, None,
    None, None, None, None, None, None, None, None, None, None)

  /** Nothing may be held: no key, no controller button, no modifier, no mouse button. */
  const NONE := ShortCut(2, None, 2, None,
    Some(false), Some(false), Some(false), Some(false), Some(false),
    Some(false), Some(false), Some(false), None, None)

  /** Nothing but keyboard modifiers may be held. */
  const EMPTY := ShortCut(2, None, 2, None,
    None, None, None, None, None, Some(false), Some(false), Some(false), None, None)

  /** One required key, no controller button, no trigger; the modifier and
      mouse flags are free to vary. */
  predicate SingleKeyChord(sc: ShortCut, k: Key)
  {
    sc.keyOption == 0 && sc.key == Some(k) && sc.btnOption == 0 && sc.btn.None?
    && sc.triggerL.None? && sc.triggerR.None?
  }

  /** `k` with no modifier and no mouse button. */
  function PlainChord(k: Key): (r: ShortCut)
    ensures SingleKeyChord(r, k)
  {
    ShortCut(0, Some(k), 0, None,
      Some(false), Some(false), Some(false), Some(false), Some(false),
      Some(false), Some(false), Some(false), None, None)
  }

  /** Alt + `k`, nothing else. */
  function AltChord(k: Key): (r: ShortCut)
    ensures SingleKeyChord(r, k)
  {
    PlainChord(k).(alt := Some(true))
  }

  /** Ctrl + Alt + `k`, nothing else. */
  function CtrlAltChord(k: Key): (r: ShortCut)
    ensures SingleKeyChord(r, k)
  {
    PlainChord(k).(ctrl := Some(true), alt := Some(true))
  }

  /** Shift + Alt + `k`, nothing else. */
  function ShiftAltChord(k: Key): (r: ShortCut)
    ensures SingleKeyChord(r, k)
  {
    PlainChord(k).(alt := Some(true), shift := Some(true))
  }

  /** One recorded tick: time since the recording started and what changed in it. */
  datatype RecordEntry = RecordEntry(
    ms: real,
    pressed: seq<AnyKey>,
    released: seq<AnyKey>,
    moves: seq<AnyOffset>)
}
