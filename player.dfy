/** The playback side: a virtual-gamepad batcher that only pushes a state to
    the sink when it changed, and a scheduler driven by Start / Stop / Seek /
    Update messages that plays recorded entries one at a time. Injected
    keyboard and mouse events and sink updates are collected as traces. */
module Player {
  import opened Types

  // ---------------------------------------------------------------------
  // Virtual gamepad

  /** The logical state of the virtual gamepad. */
  datatype Gamepad = Gamepad(
    buttons: bv16,
    leftTrigger: U8,
    rightTrigger: U8,
    lx: I16,
    ly: I16,
    rx: I16,
    ry: I16)

  const ZERO_PAD := Gamepad(0, 0, 0, 0, 0, 0, 0)

  /** The batcher's shadow state: the gamepad and whether it changed since
      the last flush. */
  datatype Shadow = Shadow(pad: Gamepad, dirty: bool)

  /** A mask with exactly one bit set. */
  predicate SingleBit(b: bv16)
  {
    b != 0 && b & (b - 1) == 0
  }

  /** The bits of `b` that are set in `x`. */
  function Overlap(x: bv16, b: bv16): bv16
  {
    x & b
  }

  /** `x` with every bit of `b` flipped. */
  function Toggle(x: bv16, b: bv16): bv16
  {
    x ^ b
  }

  /** `x` with every bit of `b` set. */
  function SetBits(x: bv16, b: bv16): bv16
  {
    x | b
  }

  /** `x` with every bit of `b` cleared. */
  function ClearBits(x: bv16, b: bv16): bv16
  {
    x & !b
  }

  /** Pressing flips the bits of `b` when none of them is set. */
  function PressButton(s: Shadow, b: bv16): Shadow
  {
    if Overlap(s.pad.buttons, b) == 0 then Shadow(s.pad.(buttons := Toggle(s.pad.buttons, b)), true) else s
  }

  /** Releasing flips the bits of `b` when any of them is set. */
  function ReleaseButton(s: Shadow, b: bv16): Shadow
  {
    if Overlap(s.pad.buttons, b) != 0 then Shadow(s.pad.(buttons := Toggle(s.pad.buttons, b)), true) else s
  }

  function SetTriggers(s: Shadow, l: U8, r: U8): Shadow
  {
    if s.pad.leftTrigger != l || s.pad.rightTrigger != r
    then Shadow(s.pad.(leftTrigger := l, rightTrigger := r), true)
    else s
  }

  function SetLeftStick(s: Shadow, x: I16, y: I16): Shadow
  {
    if s.pad.lx != x || s.pad.ly != y then Shadow(s.pad.(lx := x, ly := y), true) else s
  }

  function SetRightStick(s: Shadow, x: I16, y: I16): Shadow
  {
    if s.pad.rx != x || s.pad.ry != y then Shadow(s.pad.(rx := x, ry := y), true) else s
  }

  /** What a flush hands to the sink: the gamepad when dirty, nothing otherwise. */
  function FlushOut(s: Shadow): seq<Gamepad>
  {
    if s.dirty then [s.pad] else []
  }

  /** A single bit is either wholly inside a mask or wholly outside it. */
  lemma SingleBitOverlap(x: bv16, b: bv16)
    requires SingleBit(b)
    ensures Overlap(x, b) == 0 || Overlap(x, b) == b
  {
  }

  /** Flipping a clear single bit sets it. */
  lemma ToggleSets(x: bv16, b: bv16)
    requires SingleBit(b) && Overlap(x, b) == 0
    ensures Toggle(x, b) == SetBits(x, b)
  {
  }

  /** Setting bits that are all set already changes nothing. */
  lemma OrAbsorbs(x: bv16, b: bv16)
    requires Overlap(x, b) == b
    ensures SetBits(x, b) == x
  {
  }

  /** Clearing bits that are all clear already changes nothing. */
  lemma AndNotAbsorbs(x: bv16, b: bv16)
    requires Overlap(x, b) == 0
    ensures ClearBits(x, b) == x
  {
  }

  /** Setting then clearing is clearing. */
  lemma ClearAfterSet(x: bv16, b: bv16)
    ensures ClearBits(SetBits(x, b), b) == ClearBits(x, b)
  {
    var y := x | b;
    assert y & !b == x & !b;
  }

  /** Nothing of `b` is left after clearing it. */
  lemma ClearedNoOverlap(x: bv16, b: bv16)
    ensures Overlap(ClearBits(x, b), b) == 0
  {
  }

  /** Flipping a set single bit clears it. */
  lemma ToggleClears(x: bv16, b: bv16)
    requires SingleBit(b) && Overlap(x, b) != 0
    ensures Toggle(x, b) == ClearBits(x, b)
  {
  }

  /** Pressing one bit leaves it set and every other bit as it was, and
      marks the state dirty exactly when the bit was clear. */
  lemma PressSingleBit(s: Shadow, b: bv16)
    requires SingleBit(b)
    ensures PressButton(s, b).pad == s.pad.(buttons := SetBits(s.pad.buttons, b))
    ensures PressButton(s, b).dirty == (s.dirty || Overlap(s.pad.buttons, b) == 0)
  {
    var x := s.pad.buttons;
    if Overlap(x, b) == 0 {
      ToggleSets(x, b);
    } else {
      SingleBitOverlap(x, b);
      OrAbsorbs(x, b);
    }
  }

  /** Releasing one bit leaves it clear and every other bit as it was, and
      marks the state dirty exactly when the bit was set. */
  lemma ReleaseSingleBit(s: Shadow, b: bv16)
    requires SingleBit(b)
    ensures ReleaseButton(s, b).pad == s.pad.(buttons := ClearBits(s.pad.buttons, b))
    ensures ReleaseButton(s, b).dirty == (s.dirty || Overlap(s.pad.buttons, b) != 0)
  {
    var x := s.pad.buttons;
    if Overlap(x, b) != 0 {
      ToggleClears(x, b);
    } else {
      AndNotAbsorbs(x, b);
    }
  }

  /** Releasing a single bit after pressing it clears it, and releasing twice
      is releasing once. */
  lemma SingleBitRoundTrip(s: Shadow, b: bv16)
    requires SingleBit(b)
    ensures ReleaseButton(PressButton(s, b), b).pad == s.pad.(buttons := ClearBits(s.pad.buttons, b))
    ensures ReleaseButton(ReleaseButton(s, b), b) == ReleaseButton(s, b)
  {
    PressSingleBit(s, b);
    ReleaseSingleBit(PressButton(s, b), b);
    ReleaseSingleBit(s, b);
    ClearAfterSet(s.pad.buttons, b);
    ClearedNoOverlap(s.pad.buttons, b);
  }

  /** An axis setter always leaves the new pair stored, and raises the dirty
      flag exactly when the stored pair differed from it. */
  lemma SettersEffect(s: Shadow, l: U8, r: U8, x: I16, y: I16)
    ensures SetTriggers(s, l, r).pad == s.pad.(leftTrigger := l, rightTrigger := r)
    ensures SetTriggers(s, l, r).dirty == (s.dirty || s.pad.leftTrigger != l || s.pad.rightTrigger != r)
    ensures SetLeftStick(s, x, y).pad == s.pad.(lx := x, ly := y)
    ensures SetLeftStick(s, x, y).dirty == (s.dirty || s.pad.lx != x || s.pad.ly != y)
    ensures SetRightStick(s, x, y).pad == s.pad.(rx := x, ry := y)
    ensures SetRightStick(s, x, y).dirty == (s.dirty || s.pad.rx != x || s.pad.ry != y)
  {
  }

  /** Pressing an already pressed mask, or setting an axis pair to the value
      it already holds, changes nothing. */
  lemma SettersIdempotent(s: Shadow, b: bv16, l: U8, r: U8, x: I16, y: I16)
    ensures PressButton(PressButton(s, b), b) == PressButton(s, b)
    ensures SetTriggers(SetTriggers(s, l, r).(dirty := false), l, r) == SetTriggers(s, l, r).(dirty := false)
    ensures SetLeftStick(SetLeftStick(s, x, y).(dirty := false), x, y) == SetLeftStick(s, x, y).(dirty := false)
    ensures SetRightStick(SetRightStick(s, x, y).(dirty := false), x, y) == SetRightStick(s, x, y).(dirty := false)
  {
  }

  /** Setting the same stick value twice, flushing after each, reaches the
      sink at most once: the second flush sends nothing. The first sends
      exactly when the state was already dirty or the value is new. */
  lemma RepeatedStickSendsOnce(s: Shadow, x: I16, y: I16)
    ensures FlushOut(SetLeftStick(SetLeftStick(s, x, y).(dirty := false), x, y)) == []
    ensures |FlushOut(SetLeftStick(s, x, y))| == if s.dirty || s.pad.lx != x || s.pad.ly != y then 1 else 0
  {
  }

  /** The batcher in front of the virtual-controller sink. */
  class Controller {
    var pad: Gamepad
    var updated: bool
    /** Every state handed to the sink, in order. */
    var sent: seq<Gamepad>

    function State(): Shadow
      reads this
    {
      Shadow(pad, updated)
    }

    /** A fresh batcher starts dirty, so its first flush sends. */
    constructor ()
      ensures State() == Shadow(ZERO_PAD, true) && sent == []
    {
      pad := ZERO_PAD;
      updated := true;
      sent := [];
    }

    /** Send the shadow state iff it changed; afterwards it is clean. */
    method TryUpdate()
      modifies this
      ensures sent == old(sent) + FlushOut(old(State()))
      ensures State() == old(State()).(dirty := false)
    {
      if updated {
        updated := false;
        sent := sent + [pad];
      }
    }

    method Press(b: bv16)
      modifies this
      ensures State() == PressButton(old(State()), b) && sent == old(sent)
    {
      if Overlap(pad.buttons, b) == 0 {
        updated := true;
        pad := pad.(buttons := Toggle(pad.buttons, b));
      }
    }

    method Release(b: bv16)
      modifies this
      ensures State() == ReleaseButton(old(State()), b) && sent == old(sent)
    {
      if Overlap(pad.buttons, b) != 0 {
        updated := true;
        pad := pad.(buttons := Toggle(pad.buttons, b));
      }
    }

    method Trigger(l: U8, r: U8)
      modifies this
      ensures State() == SetTriggers(old(State()), l, r) && sent == old(sent)
    {
      if pad.leftTrigger != l || pad.rightTrigger != r {
        updated := true;
        pad := pad.(leftTrigger := l, rightTrigger := r);
      }
    }

    method LeftStick(x: I16, y: I16)
      modifies this
      ensures State() == SetLeftStick(old(State()), x, y) && sent == old(sent)
    {
      if pad.lx != x || pad.ly != y {
        updated := true;
        pad := pad.(lx := x, ly := y);
      }
    }

    method RightStick(x: I16, y: I16)
      modifies this
      ensures State() == SetRightStick(old(State()), x, y) && sent == old(sent)
    {
      if pad.rx != x || pad.ry != y {
        updated := true;
        pad := pad.(rx := x, ry := y);
      }
    }
  }

  /** A fresh batcher, flushed, then given the same left-stick value twice
      with a flush after each, has sent exactly two states: the initial one
      and the first stick change. */
  method StickTwiceScenario(x: I16, y: I16) returns (sends: nat)
    requires x != 0 || y != 0
    ensures sends == 2
  {
    var c := new Controller();
    c.TryUpdate();
    c.LeftStick(x, y);
    c.TryUpdate();
    c.LeftStick(x, y);
    c.TryUpdate();
    sends := |c.sent|;
  }

  // ---------------------------------------------------------------------
  // Value conversions done before the batcher is called

  /** Rounding half away from zero: the nearest integer, ties going up for
      non-negative values and down for negative ones. */
  function Round(v: real): (r: int)
    ensures v >= 0.0 ==> r as real - 0.5 <= v < r as real + 0.5
    ensures v < 0.0 ==> r as real - 0.5 < v <= r as real + 0.5
  {
    if v >= 0.0 then (v + 0.5).Floor else -((-v + 0.5).Floor)
  }

  /** Truncation toward zero: the integer part, keeping the sign. */
  function Trunc(v: real): (r: int)
    ensures v >= 0.0 ==> r as real <= v < r as real + 1.0
    ensures v < 0.0 ==> r as real - 1.0 < v <= r as real
  {
    if v >= 0.0 then v.Floor else -((-v).Floor)
  }

  /** Float-to-integer casts saturate at the bounds of the target type. */
  function Saturate(v: int, lo: int, hi: int): (r: int)
    requires lo <= hi
    ensures lo <= r <= hi
    ensures lo <= v <= hi ==> r == v
  {
    if v < lo then lo else if v > hi then hi else v
  }

  /** A trigger value scaled to a byte; inside [0, 1] no saturation occurs. */
  function TriggerByte(v: real): (r: U8)
    ensures 0.0 <= v <= 1.0 ==> r == Round(v * 255.0)
  {
    Saturate(Round(v * 255.0), 0, 255)
  }

  /** A stick value scaled to a signed 16-bit axis; inside [-1, 1] no
      saturation occurs. */
  function StickAxis(v: real): (r: I16)
    ensures -1.0 <= v <= 1.0 ==> r == Round(v * 32767.0)
  {
    Saturate(Round(v * 32767.0), -0x8000, 0x7FFF)
  }

  /** A recorded controller button code narrowed to 16 bits: larger codes
      lose their high bits. */
  function ButtonMask(code: nat): bv16
  {
    (code % 0x1_0000) as bv16
  }

  // ---------------------------------------------------------------------
  // What one entry does

  /** Mouse buttons as replayed: 0 left, 1 middle, 2 right, others by byte. */
  datatype MouseOut = LeftButton | MiddleButton | RightButton | UnknownButton(code: nat)

  function ToButton(b: nat): (r: MouseOut)
    ensures r.UnknownButton? <==> b >= 3
    ensures r.UnknownButton? ==> r.code < 0x100 && r.code == b % 0x100
  {
    if b == 0 then LeftButton
    else if b == 1 then MiddleButton
    else if b == 2 then RightButton
    else UnknownButton(b % 0x100)
  }

  /** Mouse buttons as recorded: left 0, right 1, middle 2, others by their
      own number. */
  function RecordedCode(m: MouseOut): nat
  {
    match m
    case LeftButton => 0
    case RightButton => 1
    case MiddleButton => 2
    case UnknownButton(i) => i
  }

  /** Replaying what was recorded gives back the left button and the
      numbered buttons from 3 to 255, but swaps the right and the middle
      button. */
  lemma MouseButtonsSwapped()
    ensures ToButton(RecordedCode(LeftButton)) == LeftButton
    ensures ToButton(RecordedCode(RightButton)) == MiddleButton
    ensures ToButton(RecordedCode(MiddleButton)) == RightButton
    ensures forall i :: 3 <= i < 0x100 ==> ToButton(RecordedCode(UnknownButton(i))) == UnknownButton(i)
  {
  }

  /** Calls into the keyboard and mouse injector. */
  datatype Injection =
    | PressKey(key: Key)
    | ReleaseKey(key: Key)
    | PressMouse(button: MouseOut)
    | ReleaseMouse(button: MouseOut)
    | MoveMouse(x: real, y: real)
    | ScrollWheel(dx: int, dy: int)

  function PressOut(k: AnyKey): seq<Injection>
  {
    match k
    case Keyboard(c) => [PressKey(c)]
    case MouseButton(b) => [PressMouse(ToButton(b))]
    case Controller(_, _) => []
  }

  function ReleaseOut(k: AnyKey): seq<Injection>
  {
    match k
    case Keyboard(c) => [ReleaseKey(c)]
    case MouseButton(b) => [ReleaseMouse(ToButton(b))]
    case Controller(_, _) => []
  }

  function MoveOut(o: AnyOffset): seq<Injection>
  {
    match o
    case Mouse(x, y) => [MoveMouse(x, y)]
    case Wheel(dx, dy) => [ScrollWheel(Trunc(dx), Trunc(dy))]
    case _ => []
  }

  function PressPad(s: Shadow, k: AnyKey): Shadow
  {
    match k
    case Controller(_, code) => PressButton(s, ButtonMask(code))
    case _ => s
  }

  function ReleasePad(s: Shadow, k: AnyKey): Shadow
  {
    match k
    case Controller(_, code) => ReleaseButton(s, ButtonMask(code))
    case _ => s
  }

  function MovePad(s: Shadow, o: AnyOffset): Shadow
  {
    match o
    case Trigger(_, l, r) => SetTriggers(s, TriggerByte(l), TriggerByte(r))
    case LeftStick(_, x, y) => SetLeftStick(s, StickAxis(x), StickAxis(y))
    case RightStick(_, x, y) => SetRightStick(s, StickAxis(x), StickAxis(y))
    case _ => s
  }

  /** The injector calls for a list of presses, in list order. */
  function PressOuts(keys: seq<AnyKey>): seq<Injection>
  {
    if keys == [] then [] else PressOuts(keys[..|keys| - 1]) + PressOut(keys[|keys| - 1])
  }

  function ReleaseOuts(keys: seq<AnyKey>): seq<Injection>
  {
    if keys == [] then [] else ReleaseOuts(keys[..|keys| - 1]) + ReleaseOut(keys[|keys| - 1])
  }

  function MoveOuts(moves: seq<AnyOffset>): seq<Injection>
  {
    if moves == [] then [] else MoveOuts(moves[..|moves| - 1]) + MoveOut(moves[|moves| - 1])
  }

  function PressPads(s: Shadow, keys: seq<AnyKey>): Shadow
  {
    if keys == [] then s else PressPad(PressPads(s, keys[..|keys| - 1]), keys[|keys| - 1])
  }

  function ReleasePads(s: Shadow, keys: seq<AnyKey>): Shadow
  {
    if keys == [] then s else ReleasePad(ReleasePads(s, keys[..|keys| - 1]), keys[|keys| - 1])
  }

  function MovePads(s: Shadow, moves: seq<AnyOffset>): Shadow
  {
    if moves == [] then s else MovePad(MovePads(s, moves[..|moves| - 1]), moves[|moves| - 1])
  }

  /** Injector calls of one entry: its presses, then its releases, then its
      moves, each group in list order. */
  function EntryOutputs(e: RecordEntry): seq<Injection>
  {
    PressOuts(e.pressed) + ReleaseOuts(e.released) + MoveOuts(e.moves)
  }

  /** The batcher's shadow state after the controller parts of one entry, before the flush. */
  function EntryShadow(s: Shadow, e: RecordEntry): Shadow
  {
    MovePads(ReleasePads(PressPads(s, e.pressed), e.released), e.moves)
  }

  /** Keyboard and mouse keys reach the injector one call each, in list
      order; controller keys never do. */
  lemma {:induction false} PressOutsInOrder(keys: seq<AnyKey>)
    requires forall i :: 0 <= i < |keys| ==> !keys[i].Controller?
    ensures |PressOuts(keys)| == |keys|
    ensures forall i :: 0 <= i < |keys| ==> PressOuts(keys)[i] == PressOut(keys[i])[0]
  {
    if keys != [] {
      var init, last := keys[..|keys| - 1], keys[|keys| - 1];
      PressOutsInOrder(init);
      assert PressOuts(keys) == PressOuts(init) + [PressOut(last)[0]];
    }
  }

  /** Keyboard and mouse releases reach the injector one call each, in
      list order. */
  lemma {:induction false} ReleaseOutsInOrder(keys: seq<AnyKey>)
    requires forall i :: 0 <= i < |keys| ==> !keys[i].Controller?
    ensures |ReleaseOuts(keys)| == |keys|
    ensures forall i :: 0 <= i < |keys| ==> ReleaseOuts(keys)[i] == ReleaseOut(keys[i])[0]
  {
    if keys != [] {
      var init, last := keys[..|keys| - 1], keys[|keys| - 1];
      ReleaseOutsInOrder(init);
      assert ReleaseOuts(keys) == ReleaseOuts(init) + [ReleaseOut(last)[0]];
    }
  }

  /** Mouse moves and wheel turns reach the injector one call each, in list
      order; trigger and stick moves never do. */
  lemma {:induction false} MoveOutsInOrder(moves: seq<AnyOffset>)
    requires forall i :: 0 <= i < |moves| ==> moves[i].Mouse? || moves[i].Wheel?
    ensures |MoveOuts(moves)| == |moves|
    ensures forall i :: 0 <= i < |moves| ==> MoveOuts(moves)[i] == MoveOut(moves[i])[0]
  {
    if moves != [] {
      var init, last := moves[..|moves| - 1], moves[|moves| - 1];
      MoveOutsInOrder(init);
      assert MoveOuts(moves) == MoveOuts(init) + [MoveOut(last)[0]];
    }
  }

  /** Trigger and stick moves never reach the injector. */
  lemma {:induction false} PadMovesNotInjected(moves: seq<AnyOffset>)
    requires forall i :: 0 <= i < |moves| ==> !moves[i].Mouse? && !moves[i].Wheel?
    ensures MoveOuts(moves) == []
  {
    if moves != [] {
      PadMovesNotInjected(moves[..|moves| - 1]);
    }
  }

  /** Controller keys never reach the injector. */
  lemma {:induction false} ControllerKeysNotInjected(keys: seq<AnyKey>)
    requires forall i :: 0 <= i < |keys| ==> keys[i].Controller?
    ensures PressOuts(keys) == [] && ReleaseOuts(keys) == []
  {
    if keys != [] {
      ControllerKeysNotInjected(keys[..|keys| - 1]);
    }
  }

  /** Keyboard and mouse keys never touch the gamepad. */
  lemma {:induction false} NonControllerKeysKeepPad(s: Shadow, keys: seq<AnyKey>)
    requires forall i :: 0 <= i < |keys| ==> !keys[i].Controller?
    ensures PressPads(s, keys) == s && ReleasePads(s, keys) == s
  {
    if keys != [] {
      NonControllerKeysKeepPad(s, keys[..|keys| - 1]);
    }
  }

  // ---------------------------------------------------------------------
  // The scheduler

  datatype PlayerEvent = Start | Stop | Seek(pos: nat) | Update(records: seq<RecordEntry>)

  class Player {
    var records: seq<RecordEntry>
    var currentPos: nat
    var isPlaying: bool
    var startTime: real
    /** Pending messages, oldest first, and whether a sender is still alive. */
    var inbox: seq<PlayerEvent>
    var connected: bool
    /** Every call made to the keyboard and mouse injector, in order. */
    var injected: seq<Injection>
    const controller: Controller

    constructor (c: Controller)
      ensures controller == c
      ensures records == [] && currentPos == 0 && !isPlaying && startTime == 0.0
      ensures inbox == [] && connected && injected == []
    {
      controller := c;
      records := [];
      currentPos := 0;
      isPlaying := false;
      startTime := 0.0;
      inbox := [];
      connected := true;
      injected := [];
    }

    /** Start playing; `now` is the scheduler clock, the baseline for entry times. */
    method Start(now: real)
      modifies this`isPlaying, this`startTime
      ensures isPlaying && startTime == now
    {
      isPlaying := true;
      startTime := now;
    }

    method Stop()
      modifies this`isPlaying
      ensures !isPlaying
    {
      isPlaying := false;
    }

    /** Move to position `pos`; it is not checked against the records. */
    method Seek(pos: nat)
      modifies this`currentPos
      ensures currentPos == pos
    {
      currentPos := pos;
    }

    /** Replace the records and rewind to the first. */
    method Update(list: seq<RecordEntry>)
      modifies this`records, this`currentPos
      ensures records == list && currentPos == 0
    {
      records := list;
      Seek(0);
    }

    /** What handling message `m` did to the playback fields, against the
        state before it. */
    twostate predicate Handled(m: PlayerEvent, now: real)
      reads this
    {
      match m
      case Start =>
        isPlaying && startTime == now && currentPos == old(currentPos) && records == old(records)
      case Stop =>
        !isPlaying && startTime == old(startTime) && currentPos == old(currentPos) && records == old(records)
      case Seek(pos) =>
        currentPos == pos && isPlaying == old(isPlaying) && startTime == old(startTime) && records == old(records)
      case Update(list) =>
        records == list && currentPos == 0 && isPlaying == old(isPlaying) && startTime == old(startTime)
    }

    /** Handle the oldest pending message: Some(false) when one was handled,
        Some(true) when none is pending, None when none is pending and every
        sender is gone. */
    method ProcessMsg(now: real) returns (r: Option<bool>)
      modifies this`inbox, this`isPlaying, this`startTime, this`currentPos, this`records
      ensures old(inbox) == [] ==> r == (if connected then Some(true) else None)
      ensures old(inbox) == [] ==>
        inbox == [] && isPlaying == old(isPlaying) && currentPos == old(currentPos)
        && records == old(records) && startTime == old(startTime)
      ensures old(inbox) != [] ==> r == Some(false) && inbox == old(inbox)[1..] && Handled(old(inbox)[0], now)
    {
      if inbox == [] {
        r := if connected then Some(true) else None;
        return;
      }
      var m := inbox[0];
      inbox := inbox[1..];
      match m {
        case Start => Start(now);
        case Stop => Stop();
        case Seek(pos) => Seek(pos);
        case Update(list) => Update(list);
      }
      r := Some(false);
    }

    /** One pressed key: keyboard keys and mouse buttons go to the injector
        (returned as the calls made), controller buttons to the gamepad. */
    static method Press(k: AnyKey, c: Controller) returns (out: seq<Injection>)
      modifies c
      ensures out == PressOut(k)
      ensures c.State() == PressPad(old(c.State()), k) && c.sent == old(c.sent)
    {
      match k
      case Keyboard(key) => out := [PressKey(key)];
      case MouseButton(b) => out := [PressMouse(ToButton(b))];
      case Controller(_, code) => c.Press(ButtonMask(code)); out := [];
    }

    static method Release(k: AnyKey, c: Controller) returns (out: seq<Injection>)
      modifies c
      ensures out == ReleaseOut(k)
      ensures c.State() == ReleasePad(old(c.State()), k) && c.sent == old(c.sent)
    {
      match k
      case Keyboard(key) => out := [ReleaseKey(key)];
      case MouseButton(b) => out := [ReleaseMouse(ToButton(b))];
      case Controller(_, code) => c.Release(ButtonMask(code)); out := [];
    }

    static method Move(o: AnyOffset, c: Controller) returns (out: seq<Injection>)
      modifies c
      ensures out == MoveOut(o)
      ensures c.State() == MovePad(old(c.State()), o) && c.sent == old(c.sent)
    {
      out := [];
      match o
      case Mouse(x, y) => out := [MoveMouse(x, y)];
      case Wheel(dx, dy) => out := [ScrollWheel(Trunc(dx), Trunc(dy))];
      case Trigger(_, l, r) => c.Trigger(TriggerByte(l), TriggerByte(r));
      case LeftStick(_, x, y) => c.LeftStick(StickAxis(x), StickAxis(y));
      case RightStick(_, x, y) => c.RightStick(StickAxis(x), StickAxis(y));
    }

    /** The presses of one entry, in list order. */
    static method PressAll(keys: seq<AnyKey>, c: Controller) returns (out: seq<Injection>)
      modifies c
      ensures out == PressOuts(keys)
      ensures c.State() == PressPads(old(c.State()), keys) && c.sent == old(c.sent)
    {
      out := [];
      for i := 0 to |keys|
        invariant out == PressOuts(keys[..i])
        invariant c.State() == PressPads(old(c.State()), keys[..i]) && c.sent == old(c.sent)
      {
        assert keys[..i + 1][..i] == keys[..i];
        var o := Press(keys[i], c);
        out := out + o;
      }
      assert keys[..|keys|] == keys;
    }

    /** The releases of one entry, in list order. */
    static method ReleaseAll(keys: seq<AnyKey>, c: Controller) returns (out: seq<Injection>)
      modifies c
      ensures out == ReleaseOuts(keys)
      ensures c.State() == ReleasePads(old(c.State()), keys) && c.sent == old(c.sent)
    {
      out := [];
      for i := 0 to |keys|
        invariant out == ReleaseOuts(keys[..i])
        invariant c.State() == ReleasePads(old(c.State()), keys[..i]) && c.sent == old(c.sent)
      {
        assert keys[..i + 1][..i] == keys[..i];
        var o := Release(keys[i], c);
        out := out + o;
      }
      assert keys[..|keys|] == keys;
    }

    /** The moves of one entry, in list order. */
    static method MoveAll(moves: seq<AnyOffset>, c: Controller) returns (out: seq<Injection>)
      modifies c
      ensures out == MoveOuts(moves)
      ensures c.State() == MovePads(old(c.State()), moves) && c.sent == old(c.sent)
    {
      out := [];
      for i := 0 to |moves|
        invariant out == MoveOuts(moves[..i])
        invariant c.State() == MovePads(old(c.State()), moves[..i]) && c.sent == old(c.sent)
      {
        assert moves[..i + 1][..i] == moves[..i];
        var o := Move(moves[i], c);
        out := out + o;
      }
      assert moves[..|moves|] == moves;
    }

    /** Play entry `pos`: its presses, releases and moves in order, then one
        flush of the gamepad. */
    method Play(pos: nat)
      requires pos < |records|
      modifies this`injected, controller
      ensures injected == old(injected) + EntryOutputs(records[pos])
      ensures controller.State() == EntryShadow(old(controller.State()), records[pos]).(dirty := false)
      ensures controller.sent == old(controller.sent) + FlushOut(EntryShadow(old(controller.State()), records[pos]))
    {
      var e := records[pos];
      var pressOut := PressAll(e.pressed, controller);
      var releaseOut := ReleaseAll(e.released, controller);
      var moveOut := MoveAll(e.moves, controller);
      injected := injected + (pressOut + releaseOut + moveOut);
      controller.TryUpdate();
    }

    /** One turn of the scheduler loop, with sleeping left out. A pending
        message is handled and nothing is played; an empty inbox whose
        senders are gone stops the player and ends the loop (exit); an idle
        player waits; a playing player past the end stops; otherwise the
        entry at the current position is played, the position advances and
        the player stops after the last entry. */
    method CycleStep(now: real) returns (exit: bool)
      modifies this`inbox, this`isPlaying, this`startTime, this`currentPos, this`records, this`injected, controller
      ensures exit <==> old(inbox) == [] && !old(connected)
      ensures exit ==> !isPlaying && currentPos == old(currentPos)
      ensures old(inbox) != [] || exit || !old(isPlaying) || old(currentPos) >= |old(records)| ==>
        injected == old(injected) && controller.sent == old(controller.sent)
        && controller.State() == old(controller.State())
      ensures old(inbox) != [] ==> inbox == old(inbox)[1..] && Handled(old(inbox)[0], now)
      ensures old(inbox) == [] ==> inbox == [] && records == old(records) && startTime == old(startTime)
      ensures old(inbox) == [] && old(connected) && !old(isPlaying) ==>
        !isPlaying && currentPos == old(currentPos)
      ensures old(inbox) == [] && old(connected) && old(isPlaying) && old(currentPos) >= |old(records)| ==>
        !isPlaying && currentPos == old(currentPos)
      ensures old(inbox) == [] && old(connected) && old(isPlaying) && old(currentPos) < |old(records)| ==>
        var e := old(records)[old(currentPos)];
        && injected == old(injected) + EntryOutputs(e)
        && controller.State() == EntryShadow(old(controller.State()), e).(dirty := false)
        && controller.sent == old(controller.sent) + FlushOut(EntryShadow(old(controller.State()), e))
        && currentPos == old(currentPos) + 1
        && isPlaying == (old(currentPos) + 1 < |old(records)|)
    {
      var r := ProcessMsg(now);
      if r.None? {
        Stop();
        return true;
      }
      exit := false;
      if r == Some(false) {
        return;
      }
      if !isPlaying {
        return;
      }
      var pos := currentPos;
      if pos >= |records| {
        Stop();
        return;
      }
      Play(pos);
      currentPos := pos + 1;
      if pos + 1 >= |records| {
        Stop();
      }
    }
  }

  /** A fresh player given a Start message starts playing on the next loop
      turn, plays nothing on it, and does not exit. */
  method StartMessageScenario(now: real) returns (playing: bool, exit: bool, calls: nat)
    ensures playing && !exit && calls == 0
  {
    var c := new Controller();
    var p := new Player(c);
    p.inbox := [Start];
    exit := p.CycleStep(now);
    playing := p.isPlaying;
    calls := |p.injected|;
  }
}
