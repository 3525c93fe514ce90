# droidVNC-NG InputService in Dafny

This project models `InputService` of droidVNC-NG, the class that turns the
input messages of a VNC client into Android shell commands. The VNC server
delivers RFB KeyEvent and PointerEvent messages (sections 7.5.4 and 7.5.5 of
RFC 6143). `InputService` writes one line of text per action to a root shell:
`input tap`, `input swipe`, `input keyevent`, or `service call statusbar 1`.
It keeps two independent state machines in static fields:

- **Pointer classifier** (`onPointerEvent`, `startGesture`, `endGesture`).
  It watches bit 0 of the button mask. A press records the start point and
  the clock. A release writes one command: a tap when the pointer did not
  move and less than 250 ms passed, otherwise a swipe that carries the
  elapsed time. Bits 2, 3 and 4 call `longPress` and `scroll`, whose bodies
  are empty, so they write nothing.
- **Key classifier** (`onKeyEvent`). It keeps five modifier flags (Ctrl,
  Alt, Shift, Del, Esc), each set or cleared by its own X11 keysyms. Then it
  dispatches in a fixed order:
  1. a table of special keys, acting only on a press;
  2. Ctrl+Alt+Del held, which is swallowed;
  3. Ctrl+Shift+Esc held, which is also swallowed;
  4. otherwise, on a press, `input keyevent <keysym>`.

Layout, one module per file:

- `java_ints.dfy` (`JavaInts`): Java `int` and `long` as `Int32` and
  `Int64`. It also holds bit tests on the button mask, `long` wrap-around
  for the elapsed time, and Java's truncating division.
- `decimal.dfy` (`Options`, `Decimal`): Java's decimal rendering of numbers,
  with a parser as its reference inverse.
- `commands.dfy` (`Commands`): the commands as a datatype, the exact line
  each one becomes (`Render`), and the text the shell receives (`Transcript`).
- `classifier.dfy` (`Classifier`): both state machines as pure step
  functions, `PointerStep` and `KeyStep`, and the lemmas about them.
- `traces.dfy` (`Traces`): a stream of interleaved events (`Run`, a left
  fold of the step function over the events) and lemmas over whole streams.
- `input_service.dfy` (`InputServiceModel`): the class `InputService`. Its
  fields are the Java static fields. Its methods follow the Java code branch
  by branch and are proved against `PointerStep` and `KeyStep`. A ghost
  history of events, with `Valid()`, ties the object to `Run`, so the stream
  lemmas hold of every reachable object (`ButtonOneDown`).

The static fields become fields of one object, because Dafny has no mutable
statics. The clock (`System.currentTimeMillis()`) becomes the parameter
`now`. The screen height becomes the parameter `heightPixels`. Whether
`writeCommand` throws becomes the parameter `writeFails`. A throw from
`writeCommand` ends the handler early, as the handler's `catch` does. It
leaves the modifier flags already updated. On a release it leaves
`mIsButtonOneDown` set, so the gesture stays in flight.

Three consequences of the code that a reader might not expect:

- `longPress` and `scroll` have empty bodies, so bits 2, 3 and 4 of the
  button mask write nothing.
- While Ctrl+Alt+Del or Ctrl+Shift+Esc is held, the two combination
  branches of `onKeyEvent` write nothing.
- A release acts only when `mIsButtonOneDown` is set, and only a press sets
  it, so there is never a swipe from the initial origin (0,0).
  `Traces.NoGestureWithoutPress` proves that no tap or swipe is written
  before a press.

## Model

| member | source | states |
|---|---|---|
| `JavaInts.WrapLong` | app/src/main/java/net/christianbeier/droidvnc_ng/InputService.java:227 | the `long` difference is the exact difference modulo 2^64, in `long` range, and equal to it when no overflow occurs |
| `JavaInts.WrapInt` | app/src/main/java/net/christianbeier/droidvnc_ng/InputService.java:120 | `int` negation of the height is exact modulo 2^32 and exact when in range |
| `JavaInts.JavaDiv` | app/src/main/java/net/christianbeier/droidvnc_ng/InputService.java:120-130 | Java `/` truncates toward zero: the remainder is smaller than the divisor and has the dividend's sign |
| `JavaInts.ButtonPressed` | app/src/main/java/net/christianbeier/droidvnc_ng/InputService.java:91-124 | `(buttonMask & (1 << bit)) != 0` on the 32-bit pattern of the mask; `ButtonOneIsOddMask` states what the bit-0 test means |
| `JavaInts.ButtonOneIsOddMask` | app/src/main/java/net/christianbeier/droidvnc_ng/InputService.java:91-102 | the left button is down exactly when the mask is odd, negative masks included |
| `Decimal.NatString` | app/src/main/java/net/christianbeier/droidvnc_ng/InputService.java:206 | the numeral of a keysym is non-empty, all digits, with no leading zero |
| `Decimal.IntString` | app/src/main/java/net/christianbeier/droidvnc_ng/InputService.java:231 | a coordinate or duration is rendered with a leading minus exactly when negative, digits otherwise |
| `Decimal.NatStringValue` | app/src/main/java/net/christianbeier/droidvnc_ng/InputService.java:206 | the digits written denote the number |
| `Decimal.IntStringRoundTrip` | app/src/main/java/net/christianbeier/droidvnc_ng/InputService.java:229-231 | parsing a rendered number gives back that number |
| `Commands.RenderIsLine` | app/src/main/java/net/christianbeier/droidvnc_ng/InputService.java:77 | every command is ASCII with no newline, so `getBytes("ASCII")` sends it unchanged as a single line |
| `Commands.Render` | app/src/main/java/net/christianbeier/droidvnc_ng/InputService.java:164-231 | the exact text of each command: `RenderIsLine` states that it is one ASCII line, `KeyCodeLineRoundTrip` that a key event carries its keysym, and the four line scenarios give the literal text |
| `Commands.KeyCodeLineRoundTrip` | app/src/main/java/net/christianbeier/droidvnc_ng/InputService.java:206 | the generic key event is `input keyevent ` followed by text that reads back as the keysym |
| `Commands.TranscriptLineCount` | app/src/main/java/net/christianbeier/droidvnc_ng/InputService.java:72-79 | the shell input holds exactly one newline-terminated line per command written |
| `Commands.TapLineScenario` | app/src/main/java/net/christianbeier/droidvnc_ng/InputService.java:229 | a tap at (100,100) is the line `/system/bin/input tap 100 100` |
| `Commands.SwipeLineScenario` | app/src/main/java/net/christianbeier/droidvnc_ng/InputService.java:231 | a swipe is `/system/bin/input swipe x1 y1 x2 y2 ms` |
| `Commands.NamedKeyLineScenario` | app/src/main/java/net/christianbeier/droidvnc_ng/InputService.java:164 | Tab is sent as `input keyevent "KEYCODE_TAB"`, with the quotes |
| `Commands.KeyCodeLineScenario` | app/src/main/java/net/christianbeier/droidvnc_ng/InputService.java:206 | the generic key event carries the keysym in decimal (`input keyevent 65535`) |
| `Classifier.PointerStep` | app/src/main/java/net/christianbeier/droidvnc_ng/InputService.java:82-136 | a pointer event writes at most one command |
| `Classifier.Elapsed` | app/src/main/java/net/christianbeier/droidvnc_ng/InputService.java:227 | when the clock did not go back since the press, the elapsed time is the non-negative difference of the two readings |
| `Classifier.GestureCommand` | app/src/main/java/net/christianbeier/droidvnc_ng/InputService.java:228-231 | a tap at the start point exactly when the release is at the start point in under 250 ms, otherwise a swipe from the start to the end carrying the elapsed time |
| `Classifier.ButtonFlagFollowsMask` | app/src/main/java/net/christianbeier/droidvnc_ng/InputService.java:91-105 | after a pointer event whose write succeeds, `mIsButtonOneDown` equals bit 0 of the mask; a failed release leaves it set |
| `Classifier.PressStartsGesture` | app/src/main/java/net/christianbeier/droidvnc_ng/InputService.java:91-94 | a press with the flag clear records the start point and time, sets the flag, and writes nothing |
| `Classifier.ReleaseEndsGesture` | app/src/main/java/net/christianbeier/droidvnc_ng/InputService.java:224-231 | a release writes exactly one command: a tap at the start point iff it ends there in under 250 ms, else the swipe from start to end with the elapsed time |
| `Classifier.ElapsedIsClockDifference` | app/src/main/java/net/christianbeier/droidvnc_ng/InputService.java:227 | with clock readings past the epoch, the elapsed time is the plain difference |
| `Classifier.FailedReleaseIsRetried` | app/src/main/java/net/christianbeier/droidvnc_ng/InputService.java:102-105 | a release whose write throws writes nothing and keeps the gesture in flight; the next event behaves as if the failed release had not happened |
| `Classifier.NoEdgeNoChange` | app/src/main/java/net/christianbeier/droidvnc_ng/InputService.java:91-105 | when bit 0 agrees with the flag, the state is unchanged and nothing is written |
| `Classifier.OnlyButtonOneMatters` | app/src/main/java/net/christianbeier/droidvnc_ng/InputService.java:109-131 | masks that agree on bit 0 have the same effect: bits 2, 3 and 4 write nothing |
| `Classifier.NoCommandWithoutGesture` | app/src/main/java/net/christianbeier/droidvnc_ng/InputService.java:102 | with no gesture in flight, a pointer event writes nothing |
| `Classifier.ScrollIsHalfScreen` | app/src/main/java/net/christianbeier/droidvnc_ng/InputService.java:113-131 | for a non-negative height the wheel amount is minus half the height for bit 3 and half the height for bit 4 |
| `Classifier.ScrollAmount` | app/src/main/java/net/christianbeier/droidvnc_ng/InputService.java:120-130 | the amount is half the height (rounded toward zero), negated for bit 3; for the height `Integer.MIN_VALUE` the `int` negation overflows and the amount is -2^30 |
| `Classifier.KeyStep` | app/src/main/java/net/christianbeier/droidvnc_ng/InputService.java:138-212 | a key event writes at most one command |
| `Classifier.UpdateModifiers` | app/src/main/java/net/christianbeier/droidvnc_ng/InputService.java:150-159 | each flag becomes `down != 0` on its own keysyms and keeps its value otherwise; any other keysym leaves all five flags unchanged |
| `Classifier.KeyDispatch` | app/src/main/java/net/christianbeier/droidvnc_ng/InputService.java:162-206 | a command is due exactly on a press of a special key, or on a press while no combination is held; it is the table's command for a special key and the generic key event otherwise |
| `Classifier.ModifierTracksOwnKeysym` | app/src/main/java/net/christianbeier/droidvnc_ng/InputService.java:150-159 | each flag becomes `down != 0` on its own keysyms (Ctrl 0xFFE3, Alt 0xFFE9 or 0xFF7E, Shift 0xFFE1, Del 0xFFFF, Esc 0xFF1B) and keeps its value otherwise; other keysyms change no flag |
| `Classifier.KeyReleaseWritesNothing` | app/src/main/java/net/christianbeier/droidvnc_ng/InputService.java:162-206 | a key release never writes, whatever the keysym and the flags |
| `Classifier.SpecialKeyWins` | app/src/main/java/net/christianbeier/droidvnc_ng/InputService.java:162-188 | a special key press writes its fixed command even while a combination is held |
| `Classifier.ComboSwallowsKey` | app/src/main/java/net/christianbeier/droidvnc_ng/InputService.java:192-204 | while Ctrl+Alt+Del or Ctrl+Shift+Esc is held, counting the event's own key, a non-special key writes nothing |
| `Classifier.GenericKeyEvent` | app/src/main/java/net/christianbeier/droidvnc_ng/InputService.java:205-206 | otherwise a press writes exactly `input keyevent <keysym>` |
| `Classifier.KeyWritesIff` | app/src/main/java/net/christianbeier/droidvnc_ng/InputService.java:150-206 | a key event writes iff it is a press, the write succeeds, and the key is special or no combination is held after the flag update |
| `Classifier.CtrlAltDelSwallowed` | app/src/main/java/net/christianbeier/droidvnc_ng/InputService.java:156-201 | pressing Del with Ctrl and Alt held sets the Del flag and writes nothing, because the flags are updated before the check |
| `Classifier.SpecialKeysyms` | app/src/main/java/net/christianbeier/droidvnc_ng/InputService.java:162-188 | the special table is exactly 0xFF09, 0xFF0D and 0xFF50 to 0xFF56, and contains no modifier keysym |
| `Traces.Step` | app/src/main/java/net/christianbeier/droidvnc_ng/InputService.java:82-212 | a call writes at most one command; pointer events leave the modifier flags alone and key events leave the pointer state alone |
| `Traces.Fold` | app/src/main/java/net/christianbeier/droidvnc_ng/InputService.java:82-212 | folding any step that writes at most one command over a stream writes at most one command per call |
| `Traces.FoldAppend` | app/src/main/java/net/christianbeier/droidvnc_ng/InputService.java:31-40 | for any step, folding a concatenation is folding the second part from the state the first part leaves |
| `Traces.Run` | app/src/main/java/net/christianbeier/droidvnc_ng/InputService.java:82-212 | a stream of calls writes at most one command per call |
| `Traces.RunSnoc` | app/src/main/java/net/christianbeier/droidvnc_ng/InputService.java:82-212 | one more call appends exactly what that call writes to the log |
| `Traces.RunOne` | app/src/main/java/net/christianbeier/droidvnc_ng/InputService.java:82-212 | a stream of one call is one step |
| `Traces.RunAppend` | app/src/main/java/net/christianbeier/droidvnc_ng/InputService.java:31-40 | the state carried in the static fields is all that links one part of a stream to the next |
| `Traces.ClassifiersIndependent` | app/src/main/java/net/christianbeier/droidvnc_ng/InputService.java:31-40 | the modifier flags after a stream do not depend on the pointer state, and the pointer state does not depend on the flags |
| `Traces.ButtonFlagFollowsLastPointerEvent` | app/src/main/java/net/christianbeier/droidvnc_ng/InputService.java:91-105 | after a stream, the flag equals bit 0 of the last pointer event's mask, if that event's write succeeded, whatever key events followed |
| `Traces.NoGestureWithoutPress` | app/src/main/java/net/christianbeier/droidvnc_ng/InputService.java:102-105 | if no pointer event ever sets bit 0, no tap or swipe is written and the flag stays clear |
| `Traces.TapScenario` | app/src/main/java/net/christianbeier/droidvnc_ng/InputService.java:228-229 | a press and release at (100,100), 50 ms apart, write `Tap(100,100)` |
| `Traces.SwipeScenario` | app/src/main/java/net/christianbeier/droidvnc_ng/InputService.java:230-231 | a press at (10,10) and release at (200,10) 300 ms later write `Swipe(10,10,200,10,300)` |
| `Traces.SlowTapIsSwipeScenario` | app/src/main/java/net/christianbeier/droidvnc_ng/InputService.java:228 | a release at the press point exactly 250 ms later is a swipe |
| `Traces.CtrlAltDelScenario` | app/src/main/java/net/christianbeier/droidvnc_ng/InputService.java:192-201 | Ctrl, Alt, then Del: the Ctrl and Alt presses pass through as key events and Del is swallowed |
| `Traces.CtrlReleasedScenario` | app/src/main/java/net/christianbeier/droidvnc_ng/InputService.java:150-206 | if Ctrl is released before Del is pressed, Del passes through |
| `Traces.TabScenario` | app/src/main/java/net/christianbeier/droidvnc_ng/InputService.java:162-164 | a Tab press writes the Tab command and its release writes nothing |
| `InputServiceModel.InputService.constructor` | app/src/main/java/net/christianbeier/droidvnc_ng/InputService.java:31-40 | the fields start at Java's default values, with an empty log |
| `InputServiceModel.InputService.WriteCommand` | app/src/main/java/net/christianbeier/droidvnc_ng/InputService.java:72-79 | appends the command to the log unless the write throws |
| `InputServiceModel.InputService.StartGesture` | app/src/main/java/net/christianbeier/droidvnc_ng/InputService.java:215-218 | records the start point and time |
| `InputServiceModel.InputService.EndGesture` | app/src/main/java/net/christianbeier/droidvnc_ng/InputService.java:224-236 | sets `swipeEnd` and appends the tap or swipe of the gesture, unless the write throws |
| `InputServiceModel.InputService.TrackButtonOne` | app/src/main/java/net/christianbeier/droidvnc_ng/InputService.java:91-105 | updates the pointer fields and the log exactly as `PointerStep`, and reports whether the release's write threw |
| `InputServiceModel.InputService.OnPointerEvent` | app/src/main/java/net/christianbeier/droidvnc_ng/InputService.java:82-136 | the new pointer fields and log are `PointerStep` of the old ones, the modifier flags are unchanged, and `Valid()` is kept |
| `InputServiceModel.InputService.SaveModifierStates` | app/src/main/java/net/christianbeier/droidvnc_ng/InputService.java:150-159 | the flags become `UpdateModifiers` of the old flags |
| `InputServiceModel.InputService.DispatchKey` | app/src/main/java/net/christianbeier/droidvnc_ng/InputService.java:162-206 | the source's if-chain writes what the special-key table and `KeyDispatch` prescribe |
| `InputServiceModel.InputService.OnKeyEvent` | app/src/main/java/net/christianbeier/droidvnc_ng/InputService.java:138-212 | the new flags and log are `KeyStep` of the old ones, the pointer fields are unchanged, and `Valid()` is kept |
| `InputServiceModel.InputService.LongPress` | app/src/main/java/net/christianbeier/droidvnc_ng/InputService.java:239-242 | changes nothing: the body is empty |
| `InputServiceModel.InputService.Scroll` | app/src/main/java/net/christianbeier/droidvnc_ng/InputService.java:244-257 | changes nothing: the body is empty |
| `InputServiceModel.ButtonOneDown` | app/src/main/java/net/christianbeier/droidvnc_ng/InputService.java:31-40 | on any object reached by calls, `mIsButtonOneDown` equals bit 0 of the last pointer event whose write succeeded, and while no event has pressed the left button the flag is clear and no tap or swipe has been written |
| `InputServiceModel.ClickSession` | app/src/main/java/net/christianbeier/droidvnc_ng/InputService.java:82-105 | on an object, a press and a release at one point 50 ms apart log exactly one tap |
| `InputServiceModel.LostKeySession` | app/src/main/java/net/christianbeier/droidvnc_ng/InputService.java:205-211 | on an object, a key press whose write throws is lost and the same press again logs one key event |
| `InputServiceModel.CtrlAltDelSession` | app/src/main/java/net/christianbeier/droidvnc_ng/InputService.java:192-201 | on an object, Ctrl+Alt+Del logs only the Ctrl and Alt presses and leaves the pointer state alone |

## Left out

- `startSu` and `stopSu` are left out: they spawn the `su` process and open or close its pipe. The model has only the log of commands sent, and `writeFails` stands for the pipe being missing or failing.
- `Log` calls are left out: they only log. The `client` argument of both handlers is left out too, because it is only logged.
- `System.currentTimeMillis()` is not modelled: the clock is the parameter `now`, read once per event. The code reads it once in `startGesture` and once in `endGesture`, and only one of them runs per event.
- The display-metrics query (`WindowManager`, `DisplayMetrics`) is not modelled: the height is the parameter `heightPixels`. If it throws (no `context`), it does so after the bit-0 handling, and nothing after it writes, so the throw has no visible effect.
- `longPress` and `scroll` are modelled as the empty methods they are. The scroll amount is modelled as `ScrollAmount` but is not written anywhere, just as in the code.
- `isEnabled` is left out: it returns `true`.
- The commented-out code is left out: `continueGesture`, `createClick`, the `dispatchGesture` paths, and the End/POWER key mapping.
- Thread safety is left out: the Java code has no synchronisation, so the model assumes the calls come one at a time.
- Bytes are not modelled. `Commands.RenderIsLine` shows that every line is ASCII with no newline, so the ASCII encoding adds nothing.
- Classifier.PointerStep: its own contract only bounds the commands written; the full behaviour is stated by the lemmas about it (`ButtonFlagFollowsMask`, `PressStartsGesture`, `ReleaseEndsGesture`, `NoEdgeNoChange`, `OnlyButtonOneMatters`).
- Classifier.KeyStep: its own contract only bounds the commands written; the full behaviour is stated by the lemmas about it (`ModifierTracksOwnKeysym`, `SpecialKeyWins`, `ComboSwallowsKey`, `GenericKeyEvent`, `KeyWritesIff`).
