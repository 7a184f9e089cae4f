/** The recorder's configuration: the sampling interval, which devices are
    recorded, and the shortcut bound to each of the six recorder actions.
    Combined with the matcher, the built-in bindings give concrete facts
    about which chords trigger which action. */
module Recorder {
  import opened Types
  import opened State

  /** One enable flag per controller slot. */
  type SlotFlags = s: seq<bool> | |s| == 4 witness [false, false, false, false]

  datatype Config = Config(
    interval: real,
    enableMouse: bool,
    enableKeyboard: bool,
    enableController: SlotFlags,
    startRecord: ShortCuts,
    stopRecord: ShortCuts,
    startPlayback: ShortCuts,
    stopPlayback: ShortCuts,
    continueRecord: ShortCuts,
    dropRecord: ShortCuts)

  /** The six recorder actions. */
  datatype Action = StartRecord | StopRecord | StartPlayback | StopPlayback | ContinueRecord | DropRecord

  function Binding(c: Config, a: Action): ShortCuts
  {
    match a
    case StartRecord => c.startRecord
    case StopRecord => c.stopRecord
    case StartPlayback => c.startPlayback
    case StopPlayback => c.stopPlayback
    case ContinueRecord => c.continueRecord
    case DropRecord => c.dropRecord
  }

  /** The default configuration: every device policy set, every action bound
      to an empty Contains list. */
  const DEFAULT_CONFIG := Config(10.0, true, true, [true, false, false, false],
    Contains([]), Contains([]), Contains([]), Contains([]), Contains([]), Contains([]))

  /** The built-in bindings on top of the default device policy. */
  const NEW_CONFIG := DEFAULT_CONFIG.(
    startRecord := Contains([SHIFT_ENTER]),
    stopRecord := Contains([ESCAPE]),
    dropRecord := Contains([SHIFT_ESCAPE]),
    startPlayback := Contains([CTRL_ENTER]),
    stopPlayback := Contains([ESCAPE]),
    continueRecord := Exclude([ESCAPE]))

  /** No binding of either configuration names a trigger slot, so every
      binding can be matched against any pattern. */
  lemma BindingsMatchable(g: GlobalState, pat: ShortCut, a: Action)
    ensures g.ScanSafe(pat, Binding(DEFAULT_CONFIG, a).list)
    ensures g.ScanSafe(pat, Binding(NEW_CONFIG, a).list)
  {
  }

  /** Does action `a` of configuration `c` fire for the state's own pattern? */
  predicate Fires(g: GlobalState, c: Config, a: Action)
    reads g
    requires g.ScanSafe(g.Pattern(), Binding(c, a).list)
  {
    g.ShortcutsMatch(g.Pattern(), Binding(c, a))
  }

  /** Under the default configuration no action can ever fire. */
  lemma DefaultNeverFires(g: GlobalState, pat: ShortCut, a: Action)
    ensures g.ScanSafe(pat, Binding(DEFAULT_CONFIG, a).list)
    ensures !g.ShortcutsMatch(pat, Binding(DEFAULT_CONFIG, a))
  {
    EmptyAndComplement(g, pat, []);
  }

  /** Both configurations record the mouse, the keyboard and controller
      slot 0 only, sampling every 10 ms. */
  lemma SharedDevicePolicy()
    ensures NEW_CONFIG.interval == DEFAULT_CONFIG.interval == 10.0
    ensures NEW_CONFIG.enableMouse && DEFAULT_CONFIG.enableMouse
    ensures NEW_CONFIG.enableKeyboard && DEFAULT_CONFIG.enableKeyboard
    ensures NEW_CONFIG.enableController == DEFAULT_CONFIG.enableController
    ensures forall i :: 0 <= i < 4 ==> NEW_CONFIG.enableController[i] == (i == 0)
  {
  }

  /** Start recording: Shift + Enter with no other modifier. */
  lemma StartRecordMeaning(g: GlobalState)
    ensures g.ScanSafe(g.Pattern(), Binding(NEW_CONFIG, StartRecord).list)
    ensures Fires(g, NEW_CONFIG, StartRecord) <==>
      Held(g.pressedKeys, Return) && Modifiers(g.pressedKeys, false, false, true, false, false)
  {
    ChordMeaning(g, SHIFT_ENTER);
  }

  /** Start playback: Ctrl + Enter with no other modifier. */
  lemma StartPlaybackMeaning(g: GlobalState)
    ensures g.ScanSafe(g.Pattern(), Binding(NEW_CONFIG, StartPlayback).list)
    ensures Fires(g, NEW_CONFIG, StartPlayback) <==>
      Held(g.pressedKeys, Return) && Modifiers(g.pressedKeys, true, false, false, false, false)
  {
    ChordMeaning(g, CTRL_ENTER);
  }

  /** Stop recording and stop playback: Escape with no modifier. */
  lemma StopMeaning(g: GlobalState)
    ensures g.ScanSafe(g.Pattern(), Binding(NEW_CONFIG, StopRecord).list)
    ensures Binding(NEW_CONFIG, StopPlayback) == Binding(NEW_CONFIG, StopRecord)
    ensures Fires(g, NEW_CONFIG, StopRecord) <==>
      Held(g.pressedKeys, Escape) && Modifiers(g.pressedKeys, false, false, false, false, false)
  {
    ChordMeaning(g, ESCAPE);
  }

  /** Drop the recording: Shift + Escape with no other modifier. */
  lemma DropMeaning(g: GlobalState)
    ensures g.ScanSafe(g.Pattern(), Binding(NEW_CONFIG, DropRecord).list)
    ensures Fires(g, NEW_CONFIG, DropRecord) <==>
      Held(g.pressedKeys, Escape) && Modifiers(g.pressedKeys, false, false, true, false, false)
  {
    ChordMeaning(g, SHIFT_ESCAPE);
  }

  /** Continue recording: whenever the stop chord (Escape with no modifier)
      does not fire. */
  lemma ContinueMeaning(g: GlobalState)
    ensures g.ScanSafe(g.Pattern(), Binding(NEW_CONFIG, ContinueRecord).list)
    ensures Fires(g, NEW_CONFIG, ContinueRecord) <==>
      !(Held(g.pressedKeys, Escape) && Modifiers(g.pressedKeys, false, false, false, false, false))
  {
    ChordMeaning(g, ESCAPE);
  }

  /** Start recording and start playback never fire together (Shift is
      pinned down in one and up in the other); neither do stop and drop,
      nor stop and continue. */
  lemma ExclusiveBindings(g: GlobalState)
    ensures g.ScanSafe(g.Pattern(), Binding(NEW_CONFIG, StartRecord).list)
    ensures g.ScanSafe(g.Pattern(), Binding(NEW_CONFIG, StartPlayback).list)
    ensures g.ScanSafe(g.Pattern(), Binding(NEW_CONFIG, StopRecord).list)
    ensures g.ScanSafe(g.Pattern(), Binding(NEW_CONFIG, DropRecord).list)
    ensures g.ScanSafe(g.Pattern(), Binding(NEW_CONFIG, ContinueRecord).list)
    ensures !(Fires(g, NEW_CONFIG, StartRecord) && Fires(g, NEW_CONFIG, StartPlayback))
    ensures !(Fires(g, NEW_CONFIG, StopRecord) && Fires(g, NEW_CONFIG, DropRecord))
    ensures Fires(g, NEW_CONFIG, StopRecord) != Fires(g, NEW_CONFIG, ContinueRecord)
  {
    StartRecordMeaning(g);
    StartPlaybackMeaning(g);
    StopMeaning(g);
    DropMeaning(g);
    ContinueMeaning(g);
  }

  /** Escape alone stops recording and playback, and neither drops nor
      continues. */
  lemma EscapeAlone(g: GlobalState)
    requires g.pressedKeys == [Keyboard(Escape)]
    ensures g.ScanSafe(g.Pattern(), Binding(NEW_CONFIG, StopRecord).list)
    ensures g.ScanSafe(g.Pattern(), Binding(NEW_CONFIG, DropRecord).list)
    ensures g.ScanSafe(g.Pattern(), Binding(NEW_CONFIG, ContinueRecord).list)
    ensures Fires(g, NEW_CONFIG, StopRecord) && Fires(g, NEW_CONFIG, StopPlayback)
    ensures !Fires(g, NEW_CONFIG, DropRecord) && !Fires(g, NEW_CONFIG, ContinueRecord)
  {
    StopMeaning(g);
    DropMeaning(g);
    ContinueMeaning(g);
  }

  /** Shift + Escape drops the recording and does not stop it. */
  lemma ShiftEscape(g: GlobalState)
    requires g.pressedKeys == [Keyboard(ShiftLeft), Keyboard(Escape)]
    ensures g.ScanSafe(g.Pattern(), Binding(NEW_CONFIG, StopRecord).list)
    ensures g.ScanSafe(g.Pattern(), Binding(NEW_CONFIG, DropRecord).list)
    ensures Fires(g, NEW_CONFIG, DropRecord) && !Fires(g, NEW_CONFIG, StopRecord)
  {
    StopMeaning(g);
    DropMeaning(g);
  }

  /** Shift + Enter starts recording and not playback. */
  lemma ShiftEnter(g: GlobalState)
    requires g.pressedKeys == [Keyboard(ShiftRight), Keyboard(Return)]
    ensures g.ScanSafe(g.Pattern(), Binding(NEW_CONFIG, StartRecord).list)
    ensures g.ScanSafe(g.Pattern(), Binding(NEW_CONFIG, StartPlayback).list)
    ensures Fires(g, NEW_CONFIG, StartRecord) && !Fires(g, NEW_CONFIG, StartPlayback)
  {
    StartRecordMeaning(g);
    StartPlaybackMeaning(g);
  }

  /** Ctrl + Enter starts playback and not recording. */
  lemma CtrlEnter(g: GlobalState)
    requires g.pressedKeys == [Keyboard(ControlLeft), Keyboard(Return)]
    ensures g.ScanSafe(g.Pattern(), Binding(NEW_CONFIG, StartRecord).list)
    ensures g.ScanSafe(g.Pattern(), Binding(NEW_CONFIG, StartPlayback).list)
    ensures Fires(g, NEW_CONFIG, StartPlayback) && !Fires(g, NEW_CONFIG, StartRecord)
  {
    StartRecordMeaning(g);
    StartPlaybackMeaning(g);
  }

  /** With nothing held only continue fires. */
  lemma NothingHeld(g: GlobalState, a: Action)
    requires g.pressedKeys == []
    ensures g.ScanSafe(g.Pattern(), Binding(NEW_CONFIG, a).list)
    ensures Fires(g, NEW_CONFIG, a) <==> a == ContinueRecord
  {
    match a
    case StartRecord => StartRecordMeaning(g);
    case StopRecord => StopMeaning(g);
    case StartPlayback => StartPlaybackMeaning(g);
    case StopPlayback => StopMeaning(g);
    case ContinueRecord => ContinueMeaning(g);
    case DropRecord => DropMeaning(g);
  }
}
