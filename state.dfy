/** The aggregated input state: the held-key list, the last axis values and
    the per-tick buffers that become recorded entries; the pattern derived
    from the held keys and the shortcut matcher. */
module State {
  import opened Types

  /** No element occurs twice. */
  predicate NoDup<T(==)>(s: seq<T>)
  {
    forall i, j :: 0 <= i < j < |s| ==> s[i] != s[j]
  }

  /** `s` with every occurrence of `k` removed, the rest in order. */
  function Without(s: seq<AnyKey>, k: AnyKey): (r: seq<AnyKey>)
    ensures k !in r
    ensures forall x :: x in r <==> x in s && x != k
    ensures |r| <= |s|
  {
    if s == [] then []
    else (if s[0] == k then [] else [s[0]]) + Without(s[1..], k)
  }

  /** Removing a key keeps a duplicate-free list duplicate-free. */
  lemma {:induction false} WithoutNoDup(s: seq<AnyKey>, k: AnyKey)
    requires NoDup(s)
    ensures NoDup(Without(s, k))
  {
    if s != [] {
      WithoutNoDup(s[1..], k);
      assert s[0] !in s[1..] by {
        forall j | 0 <= j < |s[1..]| ensures s[1..][j] != s[0] {
          assert s[1..][j] == s[j + 1];
        }
      }
    }
  }

  /** In a duplicate-free list, removing a held key cuts out exactly its one
      position; removing a key that is not held changes nothing. */
  lemma {:induction false} WithoutCutsOut(s: seq<AnyKey>, k: AnyKey, i: nat)
    requires NoDup(s) && i < |s| && s[i] == k
    ensures Without(s, k) == s[..i] + s[i + 1..]
  {
    if i == 0 {
      WithoutAbsent(s[1..], k);
      assert s[1..] == s[i + 1..];
    } else {
      WithoutCutsOut(s[1..], k, i - 1);
      assert s[..i] == [s[0]] + s[1..][..i - 1];
      assert s[i + 1..] == s[1..][i..];
    }
  }

  lemma {:induction false} WithoutAbsent(s: seq<AnyKey>, k: AnyKey)
    requires k !in s
    ensures Without(s, k) == s
  {
    if s != [] {
      WithoutAbsent(s[1..], k);
    }
  }

  // ---------------------------------------------------------------------
  // Axis slots

  /** The axis slot an offset event writes to. */
  datatype Slot = MouseSlot | WheelSlot | TriggerSlot(i: nat) | LeftSlot(i: nat) | RightSlot(i: nat)

  /** Controller slots exist for controllers 0 to 3 only. */
  predicate InRange(s: Slot)
  {
    match s
    case TriggerSlot(i) => i < 4
    case LeftSlot(i) => i < 4
    case RightSlot(i) => i < 4
    case _ => true
  }

  function SlotOf(o: AnyOffset): Slot
  {
    match o
    case Mouse(_, _) => MouseSlot
    case Wheel(_, _) => WheelSlot
    case Trigger(i, _, _) => TriggerSlot(i)
    case LeftStick(i, _, _) => LeftSlot(i)
    case RightStick(i, _, _) => RightSlot(i)
  }

  function ValueOf(o: AnyOffset): (real, real)
  {
    match o
    case Mouse(x, y) => (x, y)
    case Wheel(x, y) => (x, y)
    case Trigger(_, l, r) => (l, r)
    case LeftStick(_, x, y) => (x, y)
    case RightStick(_, x, y) => (x, y)
  }

  /** The value stored in one slot. */
  function Read(a: AllOffsets, s: Slot): (real, real)
    requires InRange(s)
  {
    match s
    case MouseSlot => a.mouse
    case WheelSlot => a.wheel
    case TriggerSlot(i) => a.trigger[i]
    case LeftSlot(i) => a.leftStick[i]
    case RightSlot(i) => a.rightStick[i]
  }

  /** `a` with the slot named by `o` overwritten by the value of `o`: reading
      that slot back gives the new value and every other slot is unchanged. */
  function WithOffset(a: AllOffsets, o: AnyOffset): (r: AllOffsets)
    requires InRange(SlotOf(o))
    ensures Read(r, SlotOf(o)) == ValueOf(o)
    ensures forall s :: InRange(s) && s != SlotOf(o) ==> Read(r, s) == Read(a, s)
  {
    match o
    case Mouse(x, y) => a.(mouse := (x, y))
    case Wheel(x, y) => a.(wheel := (x, y))
    case Trigger(i, l, r) => a.(trigger := a.trigger[i := (l, r)])
    case LeftStick(i, x, y) => a.(leftStick := a.leftStick[i := (x, y)])
    case RightStick(i, x, y) => a.(rightStick := a.rightStick[i := (x, y)])
  }

  // ---------------------------------------------------------------------
  // What is held

  predicate Held(keys: seq<AnyKey>, k: Key) { Keyboard(k) in keys }
  predicate CtrlHeld(keys: seq<AnyKey>) { Held(keys, ControlLeft) || Held(keys, ControlRight) }
  predicate AltHeld(keys: seq<AnyKey>) { Held(keys, Alt) || Held(keys, AltGr) }
  predicate ShiftHeld(keys: seq<AnyKey>) { Held(keys, ShiftLeft) || Held(keys, ShiftRight) }
  predicate TabHeld(keys: seq<AnyKey>) { Held(keys, Tab) }
  predicate MetaHeld(keys: seq<AnyKey>) { Held(keys, MetaLeft) || Held(keys, MetaRight) }

  /** The five keyboard modifier groups held are exactly the given ones. */
  predicate Modifiers(keys: seq<AnyKey>, ctrl: bool, alt: bool, shift: bool, tab: bool, meta: bool)
  {
    && CtrlHeld(keys) == ctrl
    && AltHeld(keys) == alt
    && ShiftHeld(keys) == shift
    && TabHeld(keys) == tab
    && MetaHeld(keys) == meta
  }

  /** None of the left, right and middle mouse buttons is held. */
  predicate NoMouseHeld(keys: seq<AnyKey>)
  {
    MouseButton(0) !in keys && MouseButton(1) !in keys && MouseButton(2) !in keys
  }

  /** The held non-modifier keyboard keys, in list order. */
  function PlainKeys(keys: seq<AnyKey>): (r: seq<Key>)
    ensures forall k :: k in r <==> Keyboard(k) in keys && !IsModifier(k)
    ensures |r| <= |keys|
  {
    if keys == [] then []
    else
      var last := keys[|keys| - 1];
      PlainKeys(keys[..|keys| - 1])
        + (if last.Keyboard? && !IsModifier(last.key) then [last.key] else [])
  }

  /** The held controller buttons, in list order. */
  function PadButtons(keys: seq<AnyKey>): (r: seq<ButtonId>)
    ensures forall b: ButtonId :: b in r <==> Controller(b.0, b.1) in keys
    ensures |r| <= |keys|
  {
    if keys == [] then []
    else
      var last := keys[|keys| - 1];
      PadButtons(keys[..|keys| - 1])
        + (if last.Controller? then [(last.pad, last.code)] else [])
  }

  function LastOf<T>(s: seq<T>): Option<T>
  {
    if s == [] then None else Some(s[|s| - 1])
  }

  /** A pattern flag: Some(true) when held, None (not Some(false)) otherwise. */
  function Flag(held: bool): Option<bool>
  {
    if held then Some(true) else None
  }

  /** One step of the pattern builder: fold one held key into the pattern. */
  function PatternStep(res: ShortCut, k: AnyKey): ShortCut
  {
    match k
    case Keyboard(c) =>
      if c == ControlLeft || c == ControlRight then res.(ctrl := Some(true))
      else if c == Alt || c == AltGr then res.(alt := Some(true))
      else if c == ShiftLeft || c == ShiftRight then res.(shift := Some(true))
      else if c == Tab then res.(tab := Some(true))
      else if c == MetaLeft || c == MetaRight then res.(windows := Some(true))
      else res.(key := Some(c), keyOption := res.keyOption + 1)
    case MouseButton(i) =>
      if i == 0 then res.(mouseL := Some(true))
      else if i == 1 then res.(mouseR := Some(true))
      else if i == 2 then res.(mouseM := Some(true))
      else res
    case Controller(id, code) =>
      res.(btnOption := res.btnOption + 1, btn := Some((id, code)))
  }

  /** The pattern of a held-key list: ANY with every held key folded in, in order. */
  function PatternOf(keys: seq<AnyKey>): ShortCut
  {
    if keys == [] then ANY
    else PatternStep(PatternOf(keys[..|keys| - 1]), keys[|keys| - 1])
  }

  /** What one fold step does to the key and controller-button slots. */
  lemma StepCounts(res: ShortCut, k: AnyKey)
    ensures PatternStep(res, k).keyOption ==
      res.keyOption + if k.Keyboard? && !IsModifier(k.key) then 1 else 0
    ensures PatternStep(res, k).key ==
      if k.Keyboard? && !IsModifier(k.key) then Some(k.key) else res.key
    ensures PatternStep(res, k).btnOption == res.btnOption + if k.Controller? then 1 else 0
    ensures PatternStep(res, k).btn == if k.Controller? then Some((k.pad, k.code)) else res.btn
  {
  }

  /** The pattern counts the held non-modifier keys and remembers the last one. */
  lemma {:induction false} PatternKeys(keys: seq<AnyKey>)
    ensures PatternOf(keys).keyOption == |PlainKeys(keys)|
    ensures PatternOf(keys).key == LastOf(PlainKeys(keys))
  {
    if keys != [] {
      PatternKeys(keys[..|keys| - 1]);
      StepCounts(PatternOf(keys[..|keys| - 1]), keys[|keys| - 1]);
    }
  }

  /** The pattern counts the held controller buttons and remembers the last one. */
  lemma {:induction false} PatternButtons(keys: seq<AnyKey>)
    ensures PatternOf(keys).btnOption == |PadButtons(keys)|
    ensures PatternOf(keys).btn == LastOf(PadButtons(keys))
  {
    if keys != [] {
      PatternButtons(keys[..|keys| - 1]);
      StepCounts(PatternOf(keys[..|keys| - 1]), keys[|keys| - 1]);
    }
  }

  /** Membership in a non-empty list: in all but the last, or the last. */
  lemma InSnoc(keys: seq<AnyKey>)
    requires keys != []
    ensures forall x :: x in keys <==> x in keys[..|keys| - 1] || x == keys[|keys| - 1]
  {
    assert keys == keys[..|keys| - 1] + [keys[|keys| - 1]];
  }

  /** What one fold step does to the modifier and mouse flags. */
  lemma StepFlags(res: ShortCut, k: AnyKey)
    ensures PatternStep(res, k).ctrl ==
      if k == Keyboard(ControlLeft) || k == Keyboard(ControlRight) then Some(true) else res.ctrl
    ensures PatternStep(res, k).alt ==
      if k == Keyboard(Alt) || k == Keyboard(AltGr) then Some(true) else res.alt
    ensures PatternStep(res, k).shift ==
      if k == Keyboard(ShiftLeft) || k == Keyboard(ShiftRight) then Some(true) else res.shift
    ensures PatternStep(res, k).tab == if k == Keyboard(Tab) then Some(true) else res.tab
    ensures PatternStep(res, k).windows ==
      if k == Keyboard(MetaLeft) || k == Keyboard(MetaRight) then Some(true) else res.windows
    ensures PatternStep(res, k).mouseL == if k == MouseButton(0) then Some(true) else res.mouseL
    ensures PatternStep(res, k).mouseR == if k == MouseButton(1) then Some(true) else res.mouseR
    ensures PatternStep(res, k).mouseM == if k == MouseButton(2) then Some(true) else res.mouseM
    ensures PatternStep(res, k).triggerL == res.triggerL && PatternStep(res, k).triggerR == res.triggerR
  {
  }

  /** The pattern flags a modifier Some(true) exactly when a key setting it
      is held, and leaves it None (not Some(false)) otherwise. */
  lemma {:induction false} PatternModifiers(keys: seq<AnyKey>)
    ensures PatternOf(keys).ctrl == Flag(CtrlHeld(keys))
    ensures PatternOf(keys).alt == Flag(AltHeld(keys))
    ensures PatternOf(keys).shift == Flag(ShiftHeld(keys))
    ensures PatternOf(keys).tab == Flag(TabHeld(keys))
    ensures PatternOf(keys).windows == Flag(MetaHeld(keys))
  {
    if keys != [] {
      var init, last := keys[..|keys| - 1], keys[|keys| - 1];
      PatternModifiers(init);
      StepFlags(PatternOf(init), last);
      InSnoc(keys);
    }
  }

  /** The same for the three mouse buttons; the trigger flags stay None. */
  lemma {:induction false} PatternMouse(keys: seq<AnyKey>)
    ensures PatternOf(keys).mouseL == Flag(MouseButton(0) in keys)
    ensures PatternOf(keys).mouseR == Flag(MouseButton(1) in keys)
    ensures PatternOf(keys).mouseM == Flag(MouseButton(2) in keys)
    ensures PatternOf(keys).triggerL == None && PatternOf(keys).triggerR == None
  {
    if keys != [] {
      var init, last := keys[..|keys| - 1], keys[|keys| - 1];
      PatternMouse(init);
      StepFlags(PatternOf(init), last);
      InSnoc(keys);
    }
  }

  /** No non-modifier key is held exactly when every held keyboard key is a modifier. */
  lemma PlainKeysEmpty(keys: seq<AnyKey>)
    ensures PlainKeys(keys) == [] <==> forall k :: k in keys && k.Keyboard? ==> IsModifier(k.key)
  {
    if PlainKeys(keys) != [] {
      var c := PlainKeys(keys)[0];
      assert c in PlainKeys(keys);
      assert Keyboard(c) in keys && !IsModifier(c);
    }
  }

  /** No controller button is held exactly when no held key is a controller button. */
  lemma PadButtonsEmpty(keys: seq<AnyKey>)
    ensures PadButtons(keys) == [] <==> forall k :: k in keys ==> !k.Controller?
  {
    if PadButtons(keys) != [] {
      var b := PadButtons(keys)[0];
      assert b in PadButtons(keys);
      assert Controller(b.0, b.1) in keys;
    } else {
      forall k | k in keys && k.Controller? ensures (k.pad, k.code) in PadButtons(keys) {
      }
    }
  }

  // ---------------------------------------------------------------------
  // Matching, over values

  /** A candidate flag None is a wildcard; Some(b) requires the pattern flag
      to be present exactly when b (a pattern None counts as not held). */
  predicate FlagAgrees(t: Option<bool>, s: Option<bool>)
  {
    s.None? || t.Some? == s.value
  }

  predicate ModifiersMatch(pat: ShortCut, sc: ShortCut)
  {
    && FlagAgrees(pat.alt, sc.alt)
    && FlagAgrees(pat.ctrl, sc.ctrl)
    && FlagAgrees(pat.shift, sc.shift)
    && FlagAgrees(pat.tab, sc.tab)
    && FlagAgrees(pat.windows, sc.windows)
    && FlagAgrees(pat.mouseL, sc.mouseL)
    && FlagAgrees(pat.mouseR, sc.mouseR)
    && FlagAgrees(pat.mouseM, sc.mouseM)
  }

  /** The trigger slots a candidate names exist. */
  predicate TriggerSlotsInRange(sc: ShortCut)
  {
    (sc.triggerL.Some? ==> sc.triggerL.value < 4) && (sc.triggerR.Some? ==> sc.triggerR.value < 4)
  }

  /** The key table. Option values above 2, and 0 without a key, impose nothing. */
  predicate KeyClause(pressed: seq<AnyKey>, pat: ShortCut, sc: ShortCut)
  {
    match sc.key
    case None =>
      && (sc.keyOption == 1 ==> pat.keyOption != 0)
      && (sc.keyOption == 2 ==> pat.keyOption == 0)
    case Some(k) =>
      && (sc.keyOption == 0 ==> Keyboard(k) in pressed)
      && (sc.keyOption == 1 ==> pat.keyOption == 1 && pat.key == Some(k))
      && (sc.keyOption == 2 ==> Keyboard(k) !in pressed)
  }

  /** The same table for controller buttons. */
  predicate ButtonClause(pressed: seq<AnyKey>, pat: ShortCut, sc: ShortCut)
  {
    match sc.btn
    case None =>
      && (sc.btnOption == 1 ==> pat.btnOption != 0)
      && (sc.btnOption == 2 ==> pat.btnOption == 0)
    case Some(b) =>
      && (sc.btnOption == 0 ==> Controller(b.0, b.1) in pressed)
      && (sc.btnOption == 1 ==> pat.btnOption == 1 && pat.btn == Some(b))
      && (sc.btnOption == 2 ==> Controller(b.0, b.1) !in pressed)
  }

  // ---------------------------------------------------------------------
  // The tracker

  class GlobalState {
    var timeMs: real
    var pressedKeys: seq<AnyKey>
    var offsets: AllOffsets
    var recPressed: seq<AnyKey>
    var recReleased: seq<AnyKey>
    var recMoves: seq<AnyOffset>
    var recStartMs: real

    /** A key is held at most once. */
    ghost predicate Valid()
      reads this
    {
      NoDup(pressedKeys)
    }

    constructor ()
      ensures Valid()
      ensures timeMs == 0.0 && pressedKeys == [] && offsets == ZERO_OFFSETS
      ensures recPressed == [] && recReleased == [] && recMoves == [] && recStartMs == 0.0
    {
      timeMs := 0.0;
      pressedKeys := [];
      offsets := ZERO_OFFSETS;
      recPressed, recReleased, recMoves := [], [], [];
      recStartMs := 0.0;
    }

    /** A key goes down: the held list gains it once, the tick buffer records
        every repeat. */
    method KeyDown(key: AnyKey)
      modifies this
      ensures key in pressedKeys
      ensures pressedKeys == if key in old(pressedKeys) then old(pressedKeys) else old(pressedKeys) + [key]
      ensures old(Valid()) ==> Valid()
      ensures recPressed == old(recPressed) + [key]
      ensures recReleased == old(recReleased) && recMoves == old(recMoves)
      ensures timeMs == old(timeMs) && offsets == old(offsets) && recStartMs == old(recStartMs)
    {
      recPressed := recPressed + [key];
      if key !in pressedKeys {
        pressedKeys := pressedKeys + [key];
      }
    }

    /** A key goes up: every occurrence leaves the held list, the others keep
        their order; the tick buffer records the release whether or not the
        key was held. */
    method KeyUp(key: AnyKey)
      modifies this
      ensures key !in pressedKeys
      ensures pressedKeys == Without(old(pressedKeys), key)
      ensures old(Valid()) ==> Valid()
      ensures recReleased == old(recReleased) + [key]
      ensures recPressed == old(recPressed) && recMoves == old(recMoves)
      ensures timeMs == old(timeMs) && offsets == old(offsets) && recStartMs == old(recStartMs)
    {
      if NoDup(pressedKeys) {
        WithoutNoDup(pressedKeys, key);
      }
      pressedKeys := Without(pressedKeys, key);
      recReleased := recReleased + [key];
    }

    /** An axis moves: its slot takes the new value, the tick buffer records it. */
    method Moves(offset: AnyOffset)
      requires InRange(SlotOf(offset))
      modifies this
      ensures offsets == WithOffset(old(offsets), offset)
      ensures recMoves == old(recMoves) + [offset]
      ensures pressedKeys == old(pressedKeys) && recPressed == old(recPressed) && recReleased == old(recReleased)
      ensures timeMs == old(timeMs) && recStartMs == old(recStartMs)
    {
      offsets := WithOffset(offsets, offset);
      recMoves := recMoves + [offset];
    }

    /** Cut a tick: hand the three buffers out as an entry stamped relative to
        the recording start, empty them and advance the tick time. */
    method NextMs(ms: real) returns (entry: RecordEntry)
      modifies this
      ensures entry == RecordEntry(ms - old(recStartMs), old(recPressed), old(recReleased), old(recMoves))
      ensures recPressed == [] && recReleased == [] && recMoves == []
      ensures timeMs == ms
      ensures pressedKeys == old(pressedKeys) && offsets == old(offsets) && recStartMs == old(recStartMs)
    {
      entry := RecordEntry(ms - recStartMs, recPressed, recReleased, recMoves);
      recPressed, recReleased, recMoves := [], [], [];
      timeMs := ms;
    }

    /** Drop the three buffers and nothing else. */
    method ClearThis()
      modifies this
      ensures recPressed == [] && recReleased == [] && recMoves == []
      ensures timeMs == old(timeMs) && pressedKeys == old(pressedKeys)
      ensures offsets == old(offsets) && recStartMs == old(recStartMs)
    {
      recPressed, recReleased, recMoves := [], [], [];
    }

    /** Start a recording `timeOffset` ms before the last tick. */
    method StartRec(timeOffset: real)
      modifies this
      ensures recStartMs == old(timeMs) - timeOffset
      ensures timeMs == old(timeMs) && pressedKeys == old(pressedKeys) && offsets == old(offsets)
      ensures recPressed == old(recPressed) && recReleased == old(recReleased) && recMoves == old(recMoves)
    {
      recStartMs := timeMs - timeOffset;
    }

    /** The pattern of the current held keys. */
    function Pattern(): ShortCut
      reads this
    {
      PatternOf(pressedKeys)
    }

    /** The left trigger test: a named slot whose stored value is zero fails. */
    predicate TriggerLPasses(sc: ShortCut)
      reads this
      requires sc.triggerL.Some? ==> sc.triggerL.value < 4
    {
      sc.triggerL.Some? ==> offsets.trigger[sc.triggerL.value].0 != 0.0
    }

    /** The right trigger test. */
    predicate TriggerRPasses(sc: ShortCut)
      reads this
      requires sc.triggerR.Some? ==> sc.triggerR.value < 4
    {
      sc.triggerR.Some? ==> offsets.trigger[sc.triggerR.value].1 != 0.0
    }

    /** Matching `sc` reads only trigger slots that exist: the left slot is
        read once the modifiers agree, the right slot only once the left
        test has passed as well. */
    predicate CanMatch(pat: ShortCut, sc: ShortCut)
      reads this
    {
      ModifiersMatch(pat, sc) ==>
        && (sc.triggerL.Some? ==> sc.triggerL.value < 4)
        && (TriggerLPasses(sc) ==> (sc.triggerR.Some? ==> sc.triggerR.value < 4))
    }

    /** Does candidate `sc` fire for pattern `pat` in this state? The tests
        run in order and the first that fails decides. */
    predicate MatchShortcut(pat: ShortCut, sc: ShortCut)
      reads this
      requires CanMatch(pat, sc)
      ensures !ModifiersMatch(pat, sc) ==> !MatchShortcut(pat, sc)
      ensures (ModifiersMatch(pat, sc) && sc.triggerL.None? && sc.triggerR.None?
               && sc.keyOption == 0 && sc.key.None? && sc.btnOption == 0 && sc.btn.None?)
        ==> MatchShortcut(pat, sc)
    {
      && ModifiersMatch(pat, sc)
      && TriggerLPasses(sc)
      && TriggerRPasses(sc)
      && KeyClause(pressedKeys, pat, sc)
      && ButtonClause(pressedKeys, pat, sc)
    }

    /** Candidate `sc` can be matched and fires. */
    predicate Hits(pat: ShortCut, sc: ShortCut)
      reads this
    {
      CanMatch(pat, sc) && MatchShortcut(pat, sc)
    }

    /** A scan over `list` reads only trigger slots that exist: every
        candidate up to the first that fires can be matched. */
    predicate ScanSafe(pat: ShortCut, list: seq<ShortCut>)
      reads this
      decreases |list|
    {
      list == [] || (CanMatch(pat, list[0]) && (MatchShortcut(pat, list[0]) || ScanSafe(pat, list[1..])))
    }

    /** Some candidate of `list` fires; the scan stops at the first that does,
        and when none fires every candidate was matched and failed. */
    function AnyMatches(pat: ShortCut, list: seq<ShortCut>): (r: bool)
      reads this
      requires ScanSafe(pat, list)
      ensures r <==> exists i :: 0 <= i < |list| && Hits(pat, list[i])
      ensures !r ==> forall i :: 0 <= i < |list| ==> CanMatch(pat, list[i]) && !MatchShortcut(pat, list[i])
      decreases |list|
    {
      if list == [] then false
      else if MatchShortcut(pat, list[0]) then true
      else
        var r := AnyMatches(pat, list[1..]);
        assert forall i :: 1 <= i < |list| ==> list[i] == list[1..][i - 1];
        r
    }

    /** Contains fires iff some candidate fires; Exclude iff none does. */
    function ShortcutsMatch(pat: ShortCut, scs: ShortCuts): (r: bool)
      reads this
      requires ScanSafe(pat, scs.list)
      ensures scs.Contains? ==> (r <==> exists i :: 0 <= i < |scs.list| && Hits(pat, scs.list[i]))
      ensures scs.Exclude? ==> (r <==> forall i :: 0 <= i < |scs.list| ==> !Hits(pat, scs.list[i]))
    {
      match scs
      case Contains(list) => AnyMatches(pat, list)
      case Exclude(list) => !AnyMatches(pat, list)
    }

    /** Build the pattern by folding the held keys, in order, into ANY. */
    method GetPattern() returns (res: ShortCut)
      ensures res == Pattern()
    {
      res := ANY;
      for i := 0 to |pressedKeys|
        invariant res == PatternOf(pressedKeys[..i])
      {
        assert pressedKeys[..i + 1][..i] == pressedKeys[..i];
        match pressedKeys[i] {
          case Keyboard(c) =>
            if c == ControlLeft || c == ControlRight {
              res := res.(ctrl := Some(true));
            } else if c == Alt || c == AltGr {
              res := res.(alt := Some(true));
            } else if c == ShiftLeft || c == ShiftRight {
              res := res.(shift := Some(true));
            } else if c == Tab {
              res := res.(tab := Some(true));
            } else if c == MetaLeft || c == MetaRight {
              res := res.(windows := Some(true));
            } else {
              res := res.(key := Some(c), keyOption := res.keyOption + 1);
            }
          case MouseButton(b) =>
            if b == 0 {
              res := res.(mouseL := Some(true));
            } else if b == 1 {
              res := res.(mouseR := Some(true));
            } else if b == 2 {
              res := res.(mouseM := Some(true));
            }
          case Controller(id, code) =>
            res := res.(btnOption := res.btnOption + 1, btn := Some((id, code)));
        }
      }
      assert pressedKeys[..|pressedKeys|] == pressedKeys;
    }

    /** Scan the candidates in order and stop at the first that fires:
        Contains then answers true, Exclude false; when none fires,
        Contains answers false and Exclude true. */
    method MatchShortcuts(pat: ShortCut, scs: ShortCuts) returns (r: bool)
      requires ScanSafe(pat, scs.list)
      ensures r == ShortcutsMatch(pat, scs)
    {
      var list := scs.list;
      for i := 0 to |list|
        invariant ScanSafe(pat, list[i..])
        invariant forall j :: 0 <= j < i ==> CanMatch(pat, list[j]) && !MatchShortcut(pat, list[j])
      {
        assert list[i..][0] == list[i] && list[i..][1..] == list[i + 1..];
        if MatchShortcut(pat, list[i]) {
          assert Hits(pat, list[i]);
          return scs.Contains?;
        }
      }
      return scs.Exclude?;
    }
  }

  // ---------------------------------------------------------------------
  // What matching means

  /** Contains([]) never fires, Exclude([]) always fires, and Exclude(v) is
      the negation of Contains(v). */
  lemma EmptyAndComplement(g: GlobalState, pat: ShortCut, v: seq<ShortCut>)
    requires g.ScanSafe(pat, v)
    ensures !g.ShortcutsMatch(pat, Contains([]))
    ensures g.ShortcutsMatch(pat, Exclude([]))
    ensures g.ShortcutsMatch(pat, Exclude(v)) == !g.ShortcutsMatch(pat, Contains(v))
  {
  }

  /** ANY fires for every state and every pattern. */
  lemma AnyIsWildcard(g: GlobalState, pat: ShortCut)
    ensures g.CanMatch(pat, ANY) && g.MatchShortcut(pat, ANY)
  {
  }

  /** A named left trigger whose slot reads zero makes the candidate fail,
      and the right slot is then never read: the candidate can be matched
      even when it names a right slot that does not exist. */
  lemma TriggerLReleased(g: GlobalState, pat: ShortCut, sc: ShortCut)
    requires sc.triggerL.Some? && sc.triggerL.value < 4
    requires g.offsets.trigger[sc.triggerL.value].0 == 0.0
    ensures g.CanMatch(pat, sc) && !g.MatchShortcut(pat, sc)
  {
  }

  /** A named right trigger whose slot reads zero makes the candidate fail. */
  lemma TriggerRReleased(g: GlobalState, pat: ShortCut, sc: ShortCut)
    requires g.CanMatch(pat, sc)
    requires sc.triggerR.Some? && sc.triggerR.value < 4
    requires g.offsets.trigger[sc.triggerR.value].1 == 0.0
    ensures !g.MatchShortcut(pat, sc)
  {
  }

  /** Candidates naming only existing trigger slots can always be scanned. */
  lemma {:induction false} InRangeScanSafe(g: GlobalState, pat: ShortCut, list: seq<ShortCut>)
    requires forall i :: 0 <= i < |list| ==> TriggerSlotsInRange(list[i])
    ensures g.ScanSafe(pat, list)
    decreases |list|
  {
    if list != [] {
      assert TriggerSlotsInRange(list[0]);
      InRangeScanSafe(g, pat, list[1..]);
    }
  }

  /** A pinned flag requires held == the pinned value; None accepts both. */
  predicate Pinned(f: Option<bool>, held: bool)
  {
    f.None? || f.value == held
  }

  /** Against the state's own pattern, a modifier or mouse flag pinned to
      Some(false) is met exactly when nothing setting it is held, and one
      pinned to Some(true) exactly when something is. */
  lemma ModifiersMeaning(keys: seq<AnyKey>, sc: ShortCut)
    ensures ModifiersMatch(PatternOf(keys), sc) <==>
      && Pinned(sc.ctrl, CtrlHeld(keys))
      && Pinned(sc.alt, AltHeld(keys))
      && Pinned(sc.shift, ShiftHeld(keys))
      && Pinned(sc.tab, TabHeld(keys))
      && Pinned(sc.windows, MetaHeld(keys))
      && Pinned(sc.mouseL, MouseButton(0) in keys)
      && Pinned(sc.mouseR, MouseButton(1) in keys)
      && Pinned(sc.mouseM, MouseButton(2) in keys)
  {
    PatternModifiers(keys);
    PatternMouse(keys);
  }

  lemma {:induction false} SingletonLast<T>(s: seq<T>, x: T)
    ensures (|s| == 1 && LastOf(s) == Some(x)) <==> s == [x]
  {
  }

  /** The key table read against the held keys themselves. */
  lemma KeyClauseMeaning(keys: seq<AnyKey>, sc: ShortCut)
    ensures sc.keyOption == 1 && sc.key.None? ==>
      (KeyClause(keys, PatternOf(keys), sc) <==> PlainKeys(keys) != [])
    ensures sc.keyOption == 2 && sc.key.None? ==>
      (KeyClause(keys, PatternOf(keys), sc) <==> PlainKeys(keys) == [])
    ensures sc.keyOption == 0 && sc.key.Some? ==>
      (KeyClause(keys, PatternOf(keys), sc) <==> Held(keys, sc.key.value))
    ensures sc.keyOption == 1 && sc.key.Some? ==>
      (KeyClause(keys, PatternOf(keys), sc) <==> PlainKeys(keys) == [sc.key.value])
    ensures sc.keyOption == 2 && sc.key.Some? ==>
      (KeyClause(keys, PatternOf(keys), sc) <==> !Held(keys, sc.key.value))
    ensures (sc.keyOption == 0 && sc.key.None?) || sc.keyOption > 2 ==>
      KeyClause(keys, PatternOf(keys), sc)
  {
    PatternKeys(keys);
    if sc.key.Some? {
      SingletonLast(PlainKeys(keys), sc.key.value);
    }
  }

  /** The controller-button table read against the held buttons. */
  lemma ButtonClauseMeaning(keys: seq<AnyKey>, sc: ShortCut)
    ensures sc.btnOption == 1 && sc.btn.None? ==>
      (ButtonClause(keys, PatternOf(keys), sc) <==> PadButtons(keys) != [])
    ensures sc.btnOption == 2 && sc.btn.None? ==>
      (ButtonClause(keys, PatternOf(keys), sc) <==> PadButtons(keys) == [])
    ensures sc.btnOption == 0 && sc.btn.Some? ==>
      (ButtonClause(keys, PatternOf(keys), sc) <==> sc.btn.value in PadButtons(keys))
    ensures sc.btnOption == 1 && sc.btn.Some? ==>
      (ButtonClause(keys, PatternOf(keys), sc) <==> PadButtons(keys) == [sc.btn.value])
    ensures sc.btnOption == 2 && sc.btn.Some? ==>
      (ButtonClause(keys, PatternOf(keys), sc) <==> sc.btn.value !in PadButtons(keys))
    ensures (sc.btnOption == 0 && sc.btn.None?) || sc.btnOption > 2 ==>
      ButtonClause(keys, PatternOf(keys), sc)
  {
    PatternButtons(keys);
    if sc.btn.Some? {
      SingletonLast(PadButtons(keys), sc.btn.value);
    }
  }

  /** A single-key chord (option 0, no controller button, no trigger, mouse
      flags free or pinned) fires against the state's own pattern exactly when
      its key is held and every pinned flag agrees with what is held. */
  lemma ChordMeaning(g: GlobalState, sc: ShortCut)
    requires sc.keyOption == 0 && sc.key.Some?
    requires sc.btnOption == 0 && sc.btn.None?
    requires sc.triggerL.None? && sc.triggerR.None?
    ensures g.CanMatch(g.Pattern(), sc)
    ensures g.MatchShortcut(g.Pattern(), sc) <==>
      && Held(g.pressedKeys, sc.key.value)
      && Pinned(sc.ctrl, CtrlHeld(g.pressedKeys))
      && Pinned(sc.alt, AltHeld(g.pressedKeys))
      && Pinned(sc.shift, ShiftHeld(g.pressedKeys))
      && Pinned(sc.tab, TabHeld(g.pressedKeys))
      && Pinned(sc.windows, MetaHeld(g.pressedKeys))
      && Pinned(sc.mouseL, MouseButton(0) in g.pressedKeys)
      && Pinned(sc.mouseR, MouseButton(1) in g.pressedKeys)
      && Pinned(sc.mouseM, MouseButton(2) in g.pressedKeys)
  {
    ModifiersMeaning(g.pressedKeys, sc);
    KeyClauseMeaning(g.pressedKeys, sc);
  }

  /** NONE fires exactly when every held key is a mouse button beyond the
      first three (those set no flag of the pattern). */
  lemma NoneMeaning(g: GlobalState)
    ensures g.CanMatch(g.Pattern(), NONE)
    ensures g.MatchShortcut(g.Pattern(), NONE) <==>
      forall k :: k in g.pressedKeys ==> k.MouseButton? && k.button >= 3
  {
    var keys := g.pressedKeys;
    ModifiersMeaning(keys, NONE);
    KeyClauseMeaning(keys, NONE);
    ButtonClauseMeaning(keys, NONE);
    PlainKeysEmpty(keys);
    PadButtonsEmpty(keys);
  }

  /** EMPTY fires exactly when every held key is a keyboard modifier or a
      mouse button beyond the first three. */
  lemma EmptyMeaning(g: GlobalState)
    ensures g.CanMatch(g.Pattern(), EMPTY)
    ensures g.MatchShortcut(g.Pattern(), EMPTY) <==>
      forall k :: k in g.pressedKeys ==>
        (k.Keyboard? && IsModifier(k.key)) || (k.MouseButton? && k.button >= 3)
  {
    var keys := g.pressedKeys;
    ModifiersMeaning(keys, EMPTY);
    KeyClauseMeaning(keys, EMPTY);
    ButtonClauseMeaning(keys, EMPTY);
    PlainKeysEmpty(keys);
    PadButtonsEmpty(keys);
  }

  /** The four chord builders fire exactly when their key is held with
      exactly the modifiers they name and none of the first three mouse
      buttons. */
  lemma ChordBuildersMeaning(g: GlobalState, k: Key)
    ensures g.CanMatch(g.Pattern(), PlainChord(k)) && g.CanMatch(g.Pattern(), AltChord(k))
    ensures g.CanMatch(g.Pattern(), CtrlAltChord(k)) && g.CanMatch(g.Pattern(), ShiftAltChord(k))
    ensures g.MatchShortcut(g.Pattern(), PlainChord(k)) <==>
      Held(g.pressedKeys, k) && Modifiers(g.pressedKeys, false, false, false, false, false) && NoMouseHeld(g.pressedKeys)
    ensures g.MatchShortcut(g.Pattern(), AltChord(k)) <==>
      Held(g.pressedKeys, k) && Modifiers(g.pressedKeys, false, true, false, false, false) && NoMouseHeld(g.pressedKeys)
    ensures g.MatchShortcut(g.Pattern(), CtrlAltChord(k)) <==>
      Held(g.pressedKeys, k) && Modifiers(g.pressedKeys, true, true, false, false, false) && NoMouseHeld(g.pressedKeys)
    ensures g.MatchShortcut(g.Pattern(), ShiftAltChord(k)) <==>
      Held(g.pressedKeys, k) && Modifiers(g.pressedKeys, false, true, true, false, false) && NoMouseHeld(g.pressedKeys)
  {
    ChordMeaning(g, PlainChord(k));
    ChordMeaning(g, AltChord(k));
    ChordMeaning(g, CtrlAltChord(k));
    ChordMeaning(g, ShiftAltChord(k));
  }

  /** The built-in chords that no configuration binds: Ctrl+Shift+Enter,
      Ctrl+Escape, and Ctrl+Shift+S with the right mouse button held. */
  lemma ConstantChordsMeaning(g: GlobalState)
    ensures g.CanMatch(g.Pattern(), CTRL_SHIFT_ENTER) && g.CanMatch(g.Pattern(), CTRL_ESCAPE)
    ensures g.CanMatch(g.Pattern(), CTRL_RIGHT_S)
    ensures g.MatchShortcut(g.Pattern(), CTRL_SHIFT_ENTER) <==>
      Held(g.pressedKeys, Return) && Modifiers(g.pressedKeys, true, false, true, false, false)
    ensures g.MatchShortcut(g.Pattern(), CTRL_ESCAPE) <==>
      Held(g.pressedKeys, Escape) && Modifiers(g.pressedKeys, true, false, false, false, false)
    ensures g.MatchShortcut(g.Pattern(), CTRL_RIGHT_S) <==>
      Held(g.pressedKeys, KeyS) && Modifiers(g.pressedKeys, true, false, true, false, false)
      && MouseButton(1) in g.pressedKeys
  {
    ChordMeaning(g, CTRL_SHIFT_ENTER);
    ChordMeaning(g, CTRL_ESCAPE);
    ChordMeaning(g, CTRL_RIGHT_S);
  }
}
