# game-movement-copy, modelled in Dafny

This project models the sequential core of a keyboard, mouse and gamepad
recorder and replayer. It has five modules.

- `Types` (`types.dfy`) holds the value types:
  - keys, axis offsets and controller events;
  - the `ShortCut` chord description with its built-in constants (`ANY`,
    `NONE`, `EMPTY`, `ESCAPE`, `SHIFT_ENTER`, …) and chord builders;
  - the recorded `RecordEntry`.
- `State` (`state.dfy`) is the input-state tracker `GlobalState`. It is a
  class whose methods fold key presses, key releases and axis moves into:
  - a duplicate-free held-key list;
  - per-tick buffers, which `NextMs` hands out as a record entry.

  It also holds the pattern builder and the shortcut matcher: the
  three-valued modifier flags and the option 0/1/2 tables for keys and
  controller buttons.
- `Pad` (`pad.dfy`) is the gamepad poller's last-seen raw state
  `ControllerRaw`. Its `BtnChange` shift loop diffs two 16-bit button masks
  into one press or release event per changed bit.
- `Player` (`player.dfy`) holds two classes:
  - `Controller`, a virtual-gamepad batcher: a shadow state plus a dirty
    flag, pushed to the sink only when it changed;
  - `Player`, the playback scheduler, driven by `Start`/`Stop`/`Seek`/`Update`
    messages. It plays one recorded entry per step and stops after the last.
- `Recorder` (`recorder.dfy`) holds the default and built-in
  configurations. Lemmas state which chords fire which of the six recorder
  actions under them.

The model uses these conventions:
- Floating-point values are `real`.
- `u8`, `u16` and `i16` are integer subset types. The batcher's button word
  is `bv16`, because the source works on it with `&` and `^`.
- Calls to the keyboard/mouse injector and to the virtual-controller sink
  are kept as traces:
  - `Player.injected`, a sequence of `Injection` values;
  - `Controller.sent`, the sequence of gamepad states handed to the sink.
- The scheduler's message channel is a sequence `inbox` plus a `connected`
  flag. The clock is a parameter `now`.

## Model

| member | source | states |
|---|---|---|
| State.GlobalState.constructor | src/state.rs:6-20 | a fresh tracker is all zero: no held keys, empty buffers, zero offsets, and the held list is duplicate-free |
| State.GlobalState.KeyDown | src/state.rs:45-50 | the key becomes held and is appended only if it was not held already; the held list stays duplicate-free; `recPressed` grows by exactly the key even when it was held; nothing else changes |
| State.GlobalState.KeyUp | src/state.rs:51-54 | the key is removed from the held list, which becomes `Without(old, key)`; `recReleased` gains the key whether or not it was held; nothing else changes |
| State.Without | src/state.rs:52 | the result lacks `k`; it holds exactly the other keys of the input, and is no longer than the input |
| State.WithoutCutsOut | src/state.rs:52 | in a duplicate-free list where `k` sits at index i, removing `k` is cutting index i out, so the other keys keep their order |
| State.WithoutNoDup | src/state.rs:52 | removing a key keeps a list duplicate-free |
| State.WithoutAbsent | src/state.rs:52 | removing a key that is not held changes nothing |
| State.GlobalState.Moves | src/state.rs:55-64 | the offset slot named by the move is overwritten, every other slot is unchanged, and the move is appended to `recMoves`; the controller index must be below 4 |
| State.WithOffset | src/state.rs:56-62 | reading back the slot the move names gives the move's values; every other slot keeps its old value |
| State.GlobalState.NextMs | src/state.rs:66-78 | returns the entry holding the three buffers and `ms - recStartMs`; the buffers are emptied and `timeMs := ms`; held keys and offsets are untouched |
| State.GlobalState.ClearThis | src/state.rs:79-83 | empties the three buffers and changes nothing else |
| State.GlobalState.StartRec | src/state.rs:244-246 | `recStartMs := timeMs - timeOffset`; nothing else changes |
| State.GlobalState.GetPattern | src/state.rs:91-119 | the loop that folds the held keys into ANY computes `PatternOf(pressedKeys)` |
| State.PatternKeys | src/state.rs:102-105 | in the pattern, `keyOption` is the number of held non-modifier keyboard keys and `key` is the last of them |
| State.PatternButtons | src/state.rs:112-115 | in the pattern, `btnOption` is the number of held controller buttons and `btn` is the last of them |
| State.PatternModifiers | src/state.rs:96-100 | each modifier flag is Some(true) exactly when a key setting it is held, and None (never Some(false)) otherwise |
| State.PatternMouse | src/state.rs:106-111 | the mouse L/R/M flags are Some(true) exactly when mouse button 0/1/2 is held, otherwise None; both trigger fields are always None |
| State.StepCounts | src/state.rs:101-104 | one fold step counts a non-modifier key into the key slot and a controller button into the button slot |
| State.StepFlags | src/state.rs:94-111 | one fold step sets exactly the flag its key names and leaves the triggers alone |
| State.PlainKeys | src/state.rs:101-104 | the non-modifier keys are exactly the held keyboard keys that are not modifiers |
| State.PadButtons | src/state.rs:112-115 | the controller buttons listed are exactly the held `Controller` keys |
| State.PlainKeysEmpty | src/state.rs:152 | no non-modifier key is listed iff every held keyboard key is a modifier |
| State.PadButtonsEmpty | src/state.rs:187 | no controller button is listed iff no held key is a controller button |
| State.ModifiersMeaning | src/state.rs:123-135 | against the state's own pattern, every flag test reduces to the key being held: a None flag is a wildcard; a Some(b) flag requires "held == b", so a pattern None counts as "not held" |
| State.KeyClauseMeaning | src/state.rs:148-179 | the key table as coded: (1,None) needs some non-modifier key; (2,None) needs none; (0,k) needs k held; (1,k) needs k to be the only non-modifier key; (2,k) needs k not held; any other option imposes nothing |
| State.ButtonClauseMeaning | src/state.rs:180-215 | the same table for controller buttons, with (id, code) pairs looked up among the held keys |
| State.GlobalState.MatchShortcut | src/state.rs:121-217 | the modifier test decides first: a candidate whose modifier or mouse flags disagree never fires, whatever else it names; a candidate that constrains nothing but those flags fires iff they agree |
| State.TriggerLReleased | src/state.rs:138-142 | a named left trigger whose slot reads zero makes the candidate fail, and such a candidate can be matched even if its right slot does not exist (the right slot is never read) |
| State.TriggerRReleased | src/state.rs:143-147 | a named right trigger whose slot reads zero makes the candidate fail |
| State.InRangeScanSafe | src/state.rs:137-147 | a list whose candidates name only trigger slots 0 to 3 can always be scanned without an out-of-range read |
| State.EmptyAndComplement | src/state.rs:219-242 | Contains([]) is always false, Exclude([]) is always true, and Exclude(v) is the negation of Contains(v) |
| State.AnyIsWildcard | src/state.rs:418-433 | `match_shortcut(pat, ANY)` is true for every state and pattern |
| State.GlobalState.AnyMatches | src/state.rs:221-228 | true iff some candidate of the list can be matched and fires; when false, every candidate was matched and failed |
| State.GlobalState.ShortcutsMatch | src/state.rs:219-242 | Contains fires iff some candidate matches; Exclude fires iff none does; required only that the scan up to the first match reads existing trigger slots |
| State.GlobalState.MatchShortcuts | src/state.rs:219-242 | the early-return scan over the candidates computes `ShortcutsMatch` |
| State.ChordMeaning | src/state.rs:121-179 | a single-key chord (option 0, no button, no trigger) fires iff its key is held and every pinned modifier and mouse flag agrees with what is held |
| State.NoneMeaning | src/state.rs:435-451 | NONE fires iff every held key is a mouse button numbered 3 or more |
| State.EmptyMeaning | src/state.rs:452-467 | EMPTY fires iff every held key is a keyboard modifier or a mouse button numbered 3 or more |
| State.ChordBuildersMeaning | src/state.rs:469-540 | `key`, `alt`, `ctrl_alt` and `shift_alt` chords fire iff their key is held with exactly the modifiers they name (none; Alt; Ctrl+Alt; Shift+Alt) and none of mouse buttons 0-2 |
| State.ConstantChordsMeaning | src/state.rs:320-415 | CTRL_SHIFT_ENTER fires iff Enter is held with Ctrl+Shift only; CTRL_ESCAPE iff Escape with Ctrl only; CTRL_RIGHT_S iff S with Ctrl+Shift only and the right mouse button held |
| Types.PlainChord | src/state.rs:469-486 | a single-key chord on k: key option 0, no controller button, no trigger |
| Types.AltChord | src/state.rs:487-504 | a single-key chord on k |
| Types.CtrlAltChord | src/state.rs:505-522 | a single-key chord on k |
| Types.ShiftAltChord | src/state.rs:523-540 | a single-key chord on k |
| Pad.ControllerRaw.constructor | src/state.rs:659-665 | a fresh raw state is all zero |
| Pad.ControllerRaw.TriggerChange | src/state.rs:668-671 | stores the trigger bytes and reports them divided by 255, so both lie in [0, 1]; other fields unchanged |
| Pad.ControllerRaw.LeftStickChange | src/state.rs:672-676 | stores the left stick and reports it divided by 32767; other fields unchanged |
| Pad.ControllerRaw.RightStickChange | src/state.rs:677-681 | stores the right stick and reports it divided by 32767; other fields unchanged |
| Pad.ControllerRaw.BtnChange | src/state.rs:682-700 | returns `ButtonEvents(old, new, 0)`: the list is empty iff new == old; afterwards `button == new`; other fields unchanged |
| Pad.ButtonEventsOrdered | src/state.rs:687-697 | every event is a press or release of a mask at least `2^k`, and the masks strictly increase along the list (increasing bit order) |
| Pad.ButtonEventsEmpty | src/state.rs:687 | no events exactly when the two masks are equal |
| Pad.NoEventsAbove | src/state.rs:687 | once the shifted masks agree, no higher bit produces an event (the loop may stop early) |
| Pad.EventsWhileDifferent | src/state.rs:687 | while the shifted masks differ, some higher bit still produces an event |
| Pad.ButtonEventsStep | src/state.rs:688-697 | one loop turn: the low bits of the shifted masks give the event for bit k, and halving moves on to bit k+1 |
| Player.Controller.constructor | src/player.rs:236-242 | a fresh batcher holds the zero gamepad and starts dirty, with nothing sent |
| Player.Controller.TryUpdate | src/player.rs:244-249 | sends the gamepad iff it is dirty; afterwards it is clean and the gamepad is unchanged |
| Player.Controller.Press | src/player.rs:251-256 | the new shadow state is `PressButton(old, b)`; nothing is sent |
| Player.Controller.Release | src/player.rs:257-262 | the new shadow state is `ReleaseButton(old, b)`; nothing is sent |
| Player.Controller.Trigger | src/player.rs:263-271 | the new shadow state is `SetTriggers(old, l, r)`; nothing is sent |
| Player.Controller.LeftStick | src/player.rs:272-280 | the new shadow state is `SetLeftStick(old, x, y)`; nothing is sent |
| Player.Controller.RightStick | src/player.rs:281-289 | the new shadow state is `SetRightStick(old, x, y)`; nothing is sent |
| Player.PressSingleBit | src/player.rs:251-256 | pressing a single-bit mask leaves that bit set and every other field as it was; the state becomes dirty exactly when the bit was clear |
| Player.ReleaseSingleBit | src/player.rs:257-262 | releasing a single-bit mask leaves that bit clear and every other field as it was; the state becomes dirty exactly when the bit was set |
| Player.SingleBitRoundTrip | src/player.rs:251-262 | release after press clears the bit; releasing twice is releasing once |
| Player.SettersIdempotent | src/player.rs:251-289 | pressing twice is pressing once; re-setting an axis pair to its stored value after a flush changes nothing |
| Player.SettersEffect | src/player.rs:263-289 | an axis setter always stores the new pair and raises the dirty flag exactly when the stored pair differed |
| Player.RepeatedStickSendsOnce | src/player.rs:244-249 | setting the same stick value twice with a flush after each reaches the sink at most once; the first flush sends iff the state was dirty or the value is new |
| Player.StickTwiceScenario | src/player.rs:236-280 | a fresh batcher flushed once, then given the same non-zero stick value twice with a flush after each, has sent exactly two states |
| Player.Saturate | src/player.rs:264-283 | the saturating cast lands in the target range and is the identity inside it |
| Player.Round | src/player.rs:264-283 | the nearest integer, ties rounding away from zero |
| Player.Trunc | src/player.rs:217-218 | the integer part toward zero, keeping the sign |
| Player.TriggerByte | src/player.rs:264-265 | inside [0, 1] the byte is the rounded value times 255, with no saturation |
| Player.StickAxis | src/player.rs:273-283 | inside [-1, 1] the axis is the rounded value times 32767, with no saturation |
| Player.ToButton | src/player.rs:183-195 | codes 0, 1 and 2 give named buttons; every code from 3 on gives an unknown button numbered by the code's low byte |
| Player.MouseButtonsSwapped | src/state.rs:27-35 | replaying a recorded button gives back the left button and the numbered buttons 3 to 255, but turns right into middle and middle into right |
| Player.Player.constructor | src/player.rs:45-53 | a fresh player has no records, position 0, is not playing, and has an empty, connected inbox |
| Player.Player.Start | src/player.rs:132-139 | `isPlaying := true`, and the start time becomes the clock value |
| Player.Player.Stop | src/player.rs:140-146 | `isPlaying := false` |
| Player.Player.Seek | src/player.rs:147-150 | `currentPos := pos`, with no bounds check |
| Player.Player.Update | src/player.rs:151-155 | replaces the records and sets `currentPos := 0` |
| Player.Player.ProcessMsg | src/player.rs:156-166 | handles the oldest message and answers Some(false), with the state change `Handled` gives for its kind (Start: playing, start time = clock; Stop: not playing; Seek: position set; Update: records replaced, position 0; each leaves the other fields as they were); with an empty inbox it answers Some(true) while connected and None once disconnected, and changes nothing |
| Player.Player.Press | src/player.rs:196-203 | a keyboard key or mouse button becomes one injector call; a controller button becomes a batcher press of `code mod 2^16` |
| Player.Player.Release | src/player.rs:204-211 | the mirror image of Press |
| Player.Player.Move | src/player.rs:212-224 | a mouse move or wheel becomes one injector call, with the wheel truncated toward zero; triggers and sticks go to the batcher after scaling and rounding |
| Player.Player.PressAll | src/player.rs:172-174 | the press loop makes the calls `PressOuts(keys)` and leaves the batcher at `PressPads(old, keys)` |
| Player.Player.ReleaseAll | src/player.rs:175-177 | the release loop makes the calls `ReleaseOuts(keys)` and leaves the batcher at `ReleasePads(old, keys)` |
| Player.Player.MoveAll | src/player.rs:178-180 | the move loop makes the calls `MoveOuts(moves)` and leaves the batcher at `MovePads(old, moves)` |
| Player.Player.Play | src/player.rs:168-182 | the injector gets every pressed key, then every released key, then every move, each group in list order; then exactly one flush sends the batched state iff it changed |
| Player.PressOutsInOrder | src/player.rs:172-174 | keyboard and mouse presses reach the injector one call each, in list order |
| Player.ReleaseOutsInOrder | src/player.rs:175-177 | keyboard and mouse releases reach the injector one call each, in list order |
| Player.MoveOutsInOrder | src/player.rs:178-180 | mouse moves and wheel turns reach the injector one call each, in list order |
| Player.PadMovesNotInjected | src/player.rs:220-222 | trigger and stick moves never reach the injector |
| Player.ControllerKeysNotInjected | src/player.rs:201 | controller buttons never reach the injector |
| Player.NonControllerKeysKeepPad | src/player.rs:199-200 | keyboard keys and mouse buttons never touch the gamepad |
| Player.Player.CycleStep | src/player.rs:96-130 | one loop turn, which never changes `connected`. A pending message is handled with the effect `Handled` gives for its kind, and nothing is played. Without a message the records and the start time stay as they were. An empty, disconnected inbox ends the loop with `isPlaying` false and the position kept. An idle player waits. A playing player past the end stops without playing or moving. Otherwise entry `pos` is played, `currentPos := pos+1`, and `isPlaying` becomes false iff `pos+1 >= len` |
| Recorder.BindingsMatchable | src/recorder.rs:25-63 | no binding of either configuration names a trigger slot, so every binding can be scanned in every state and against any pattern |
| Recorder.DefaultNeverFires | src/recorder.rs:33-38 | under the default configuration no action ever fires, whatever the state and pattern |
| Recorder.SharedDevicePolicy | src/recorder.rs:28-31 | both configurations enable mouse and keyboard, enable controller slot 0 only, and use interval 10 (`..Default::default()` at line 60) |
| Recorder.StartRecordMeaning | src/recorder.rs:54 | start recording fires iff Enter is held with Shift and no other modifier |
| Recorder.StartPlaybackMeaning | src/recorder.rs:57 | start playback fires iff Enter is held with Ctrl and no other modifier |
| Recorder.StopMeaning | src/recorder.rs:55-58 | stop recording and stop playback share one binding; it fires iff Escape is held with no modifier |
| Recorder.DropMeaning | src/recorder.rs:56 | drop fires iff Escape is held with Shift and no other modifier |
| Recorder.ContinueMeaning | src/recorder.rs:59 | continue fires iff the Escape-alone chord does not |
| Recorder.ExclusiveBindings | src/recorder.rs:53-61 | start recording and start playback never fire together, nor do stop and drop; stop and continue always disagree |
| Recorder.EscapeAlone | src/recorder.rs:55-59 | with only Escape held, stop recording and stop playback fire, and drop and continue do not |
| Recorder.ShiftEscape | src/recorder.rs:55-56 | with Shift+Escape held, drop fires and stop recording does not |
| Recorder.ShiftEnter | src/recorder.rs:54-57 | with Shift+Enter held, start recording fires and start playback does not |
| Recorder.CtrlEnter | src/recorder.rs:54-57 | with Ctrl+Enter held, start playback fires and start recording does not |
| Recorder.NothingHeld | src/recorder.rs:54-59 | with nothing held, only continue fires |

## Left out

- State.GlobalState.MatchShortcuts: an out-of-range trigger slot panics in the source; the model does not model the panic. `MatchShortcut`, `AnyMatches`, `ShortcutsMatch` and `MatchShortcuts` instead require that no such read happens. For one candidate that is `CanMatch`: the left slot must exist once the modifiers agree, and the right slot once the left test has passed too. For a list it is `ScanSafe`: this holds up to the first candidate that fires, and no further.
- State.GlobalState.GetPattern: `key_option` and `controller_btn_option` are `u8` in the source. The count is unbounded here, so the overflow after 255 held keys is not modelled.
- State.GlobalState.Moves: the index check on the offset's controller id is a precondition. The source panics out of range.
- Pad.ControllerRaw.TriggerChange: the division by 255 and by 32767 is exact real division, not `f64` division.
- Player.Player.Move: the `f64` rounding and saturating casts to `u8`/`i16` are modelled as exact real rounding (half away from zero) followed by saturation. `f64` multiplication error and NaN are not modelled. The wheel's cast to `i64` is truncation toward zero, without the `i64` bound.
- Player.Player.CycleStep: the sleeps (60 fps idle wait and waiting until an entry's time) and the `Instant` clock are left out. Entries are played as soon as the step runs, and `now` is the clock value passed in.
- Threads, channels and shared `Arc<RwLock>` state: the `RecordPlayer` front end (src/player.rs:19-80) is not part of this model. Its messages appear directly in `inbox`.
- Driver and OS I/O: `rdev::simulate` and the ViGEm connect, plugin and update calls become appended trace items. Their `unwrap`ped failures are not modelled.
- Player.MouseButtonsSwapped: no round trip between recording and playback is promised. Playback maps 1 to Middle and 2 to Right (src/player.rs:183-195), while recording maps Right to 1 and Middle to 2 (src/state.rs:30-32). The lemma states what actually happens: right and middle are swapped.
- Player.ButtonMask: has no contract of its own. The narrowing of a controller code to 16 bits is used as written, because a `bv16`-to-integer contract is beyond what the solver proves cheaply.
- Keyboard key codes are abstract. Only the modifiers, Return, Escape and S are named; every other key is `OtherKey(code)`.
- YAML persistence, serde derives and the `Debug` formatting of `ShortCut` (src/state.rs:543-613) are library serialization and string output.
- The recorder's listening threads, XInput polling and the record/append/stop/drop flow are not part of this model. src/main.rs (logger setup and startup glue) is not part of this model either.
