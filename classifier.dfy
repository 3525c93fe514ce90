/** The two state machines of InputService, as functions from the prior
    state and one input event to the new state and the commands written.
    `now` stands for `System.currentTimeMillis()` and `writeFails` for a
    `writeCommand` that throws (no root shell, or a failed pipe write). */
module Classifier {
  import opened JavaInts
  import opened Options
  import opened Commands

  /** A release at the press point sooner than this many milliseconds after
      the press is a tap. */
  const TapTimeoutMs := 250

  /** The new state of one machine and the commands written meanwhile. */
  datatype Outcome<S> = Outcome(state: S, written: seq<Command>)

  // ---------------------------------------------------------------------
  // Pointer classifier
  // ---------------------------------------------------------------------

  datatype PointerState = PointerState(
    buttonOneDown: bool,
    swipeStart: Point,
    swipeEnd: Point,
    lastGestureStartTime: Int64)

  /** Java's default values of the static fields. */
  const InitialPointer := PointerState(false, Point(0, 0), Point(0, 0), 0)

  /** The time `endGesture` measures: a `long` subtraction. */
  function Elapsed(s: PointerState, now: Int64): (r: Int64)
    ensures 0 <= s.lastGestureStartTime <= now ==> 0 <= r == now - s.lastGestureStartTime
  {
    WrapLong(now - s.lastGestureStartTime)
  }

  /** The command `endGesture` writes for a gesture from `start` to `end`. */
  function GestureCommand(start: Point, end: Point, elapsed: Int64): (c: Command)
    ensures c.Tap? || c.Swipe?
    ensures c.Tap? <==> end == start && elapsed < TapTimeoutMs
    ensures c.Tap? ==> c.x == start.x && c.y == start.y
    ensures c.Swipe? ==> Point(c.x1, c.y1) == start && Point(c.x2, c.y2) == end && c.durationMs == elapsed
  {
    if end == start && elapsed < TapTimeoutMs then Tap(start.x, start.y)
    else Swipe(start.x, start.y, end.x, end.y, elapsed)
  }

  /** `onPointerEvent` on the pointer state. Only bit 0 of the mask has an
      effect: `longPress` and `scroll` have empty bodies. */
  function PointerStep(s: PointerState, buttonMask: Int32, x: Int32, y: Int32, now: Int64, writeFails: bool)
    : (o: Outcome<PointerState>)
    ensures |o.written| <= 1
  {
    var pressed := ButtonPressed(buttonMask, 0);
    if pressed && !s.buttonOneDown then
      Outcome(s.(buttonOneDown := true, swipeStart := Point(x, y), lastGestureStartTime := now), [])
    else if !pressed && s.buttonOneDown then
      var ended := s.(swipeEnd := Point(x, y));
      if writeFails then Outcome(ended, [])
      else Outcome(ended.(buttonOneDown := false), [GestureCommand(s.swipeStart, Point(x, y), Elapsed(s, now))])
    else
      Outcome(s, [])
  }

  /** The amount `onPointerEvent` passes to `scroll` for bit 3 (`up`) and
      bit 4: `-heightPixels / 2` and `heightPixels / 2` in `int` arithmetic. */
  function ScrollAmount(heightPixels: Int32, up: bool): (r: Int32)
    ensures !up ==> Abs(heightPixels - 2 * r) <= 1 && Abs(2 * r) <= Abs(heightPixels)
    ensures up && heightPixels != -0x8000_0000 ==> Abs(-heightPixels - 2 * r) <= 1 && Abs(2 * r) <= Abs(heightPixels)
    ensures up && heightPixels == -0x8000_0000 ==> r == -0x4000_0000
  {
    if up then JavaDiv(WrapInt(-(heightPixels as int)), 2) else JavaDiv(heightPixels, 2)
  }

  /** The flag tracks bit 0 of the last mask, unless the write of a release
      failed, which leaves the flag set. */
  lemma ButtonFlagFollowsMask(s: PointerState, buttonMask: Int32, x: Int32, y: Int32, now: Int64, writeFails: bool)
    ensures var o := PointerStep(s, buttonMask, x, y, now, writeFails);
      && (!writeFails ==> o.state.buttonOneDown == ButtonPressed(buttonMask, 0))
      && (writeFails ==> o.state.buttonOneDown == (ButtonPressed(buttonMask, 0) || s.buttonOneDown))
  {
  }

  /** A press records the start point and time and writes nothing. */
  lemma PressStartsGesture(s: PointerState, buttonMask: Int32, x: Int32, y: Int32, now: Int64, writeFails: bool)
    requires ButtonPressed(buttonMask, 0) && !s.buttonOneDown
    ensures PointerStep(s, buttonMask, x, y, now, writeFails)
         == Outcome(s.(buttonOneDown := true, swipeStart := Point(x, y), lastGestureStartTime := now), [])
  {
  }

  /** A release writes exactly one command: a tap at the start point when it
      ends where it started in under 250 ms, otherwise a swipe from the start
      to the release point lasting the elapsed time. */
  lemma ReleaseEndsGesture(s: PointerState, buttonMask: Int32, x: Int32, y: Int32, now: Int64)
    requires !ButtonPressed(buttonMask, 0) && s.buttonOneDown
    ensures var o := PointerStep(s, buttonMask, x, y, now, false);
      && o.state == s.(buttonOneDown := false, swipeEnd := Point(x, y))
      && |o.written| == 1
      && (o.written[0].Tap? <==> Point(x, y) == s.swipeStart && Elapsed(s, now) < TapTimeoutMs)
      && (o.written[0].Tap? ==> o.written[0] == Tap(s.swipeStart.x, s.swipeStart.y))
      && (!o.written[0].Tap? ==>
            o.written[0] == Swipe(s.swipeStart.x, s.swipeStart.y, x, y, Elapsed(s, now)))
  {
  }

  /** With a wall clock past the epoch, the elapsed time is the plain
      difference of the two readings. */
  lemma ElapsedIsClockDifference(s: PointerState, now: Int64)
    requires s.lastGestureStartTime >= 0 && now >= 0
    ensures Elapsed(s, now) == now - s.lastGestureStartTime
  {
  }

  /** A release whose write fails leaves the gesture in flight: the next
      event acts as if the failed release had not happened (only the
      unused `swipeEnd` may differ), so the next release writes the gesture
      timed from the original press. */
  lemma FailedReleaseIsRetried(s: PointerState, buttonMask: Int32, x: Int32, y: Int32, now: Int64,
                               mask2: Int32, x2: Int32, y2: Int32, now2: Int64, writeFails2: bool)
    requires !ButtonPressed(buttonMask, 0) && s.buttonOneDown
    ensures var failed := PointerStep(s, buttonMask, x, y, now, true);
      && failed.written == []
      && failed.state.buttonOneDown
      && failed.state.swipeStart == s.swipeStart
      && failed.state.lastGestureStartTime == s.lastGestureStartTime
      && var retried := PointerStep(failed.state, mask2, x2, y2, now2, writeFails2);
         var direct := PointerStep(s, mask2, x2, y2, now2, writeFails2);
         && retried.written == direct.written
         && retried.state.(swipeEnd := direct.state.swipeEnd) == direct.state
  {
  }

  /** Without an edge of bit 0 nothing changes and nothing is written. */
  lemma NoEdgeNoChange(s: PointerState, buttonMask: Int32, x: Int32, y: Int32, now: Int64, writeFails: bool)
    requires ButtonPressed(buttonMask, 0) == s.buttonOneDown
    ensures PointerStep(s, buttonMask, x, y, now, writeFails) == Outcome(s, [])
  {
  }

  /** Bits other than bit 0 (the right button, bit 2, and the wheel, bits 3
      and 4) neither change the state nor write anything. */
  lemma OnlyButtonOneMatters(s: PointerState, m1: Int32, m2: Int32, x: Int32, y: Int32, now: Int64, writeFails: bool)
    requires ButtonPressed(m1, 0) == ButtonPressed(m2, 0)
    ensures PointerStep(s, m1, x, y, now, writeFails) == PointerStep(s, m2, x, y, now, writeFails)
  {
  }

  /** Nothing is written unless a gesture is in flight. */
  lemma NoCommandWithoutGesture(s: PointerState, buttonMask: Int32, x: Int32, y: Int32, now: Int64, writeFails: bool)
    requires !s.buttonOneDown
    ensures PointerStep(s, buttonMask, x, y, now, writeFails).written == []
  {
  }

  /** For a screen height the display can report, the wheel scrolls by half
      the screen, up for bit 3 and down for bit 4. */
  lemma ScrollIsHalfScreen(heightPixels: Int32)
    requires heightPixels >= 0
    ensures ScrollAmount(heightPixels, false) == heightPixels / 2
    ensures ScrollAmount(heightPixels, true) == -(heightPixels / 2)
  {
  }

  // ---------------------------------------------------------------------
  // Key classifier
  // ---------------------------------------------------------------------

  /** X11 keysyms of the modifier keys InputService tracks. */
  const XkControlL: Int64 := 0xFFE3
  const XkAltL: Int64 := 0xFFE9
  /** What macOS clients send for Alt. */
  const XkModeSwitch: Int64 := 0xFF7E
  const XkShiftL: Int64 := 0xFFE1
  const XkDelete: Int64 := 0xFFFF
  const XkEscape: Int64 := 0xFF1B

  datatype Modifiers = Modifiers(ctrl: bool, alt: bool, shift: bool, del: bool, esc: bool)

  const InitialModifiers := Modifiers(false, false, false, false, false)

  predicate IsModifierKeysym(keysym: Int64)
  {
    keysym == XkControlL || keysym == XkAltL || keysym == XkModeSwitch
    || keysym == XkShiftL || keysym == XkDelete || keysym == XkEscape
  }

  /** The modifier bookkeeping at the head of `onKeyEvent`. */
  function UpdateModifiers(m: Modifiers, keysym: Int64, down: Int32): (r: Modifiers)
    ensures r.ctrl == (if keysym == XkControlL then down != 0 else m.ctrl)
    ensures r.alt == (if keysym == XkAltL || keysym == XkModeSwitch then down != 0 else m.alt)
    ensures r.shift == (if keysym == XkShiftL then down != 0 else m.shift)
    ensures r.del == (if keysym == XkDelete then down != 0 else m.del)
    ensures r.esc == (if keysym == XkEscape then down != 0 else m.esc)
    ensures !IsModifierKeysym(keysym) ==> r == m
  {
    var isDown := down != 0;
    if keysym == XkControlL then m.(ctrl := isDown)
    else if keysym == XkAltL || keysym == XkModeSwitch then m.(alt := isDown)
    else if keysym == XkShiftL then m.(shift := isDown)
    else if keysym == XkDelete then m.(del := isDown)
    else if keysym == XkEscape then m.(esc := isDown)
    else m
  }

  /** The special keys and the command each sends when pressed: Tab, Return,
      Home, the four arrows, Page Up (app switcher) and Page Down (status bar). */
  const SpecialKeys: map<Int64, Command> := map[
    0xFF09 := NamedKey(Tab),
    0xFF0D := NamedKey(Enter),
    0xFF50 := NamedKey(Home),
    0xFF51 := NamedKey(DpadLeft),
    0xFF52 := NamedKey(DpadUp),
    0xFF53 := NamedKey(DpadRight),
    0xFF54 := NamedKey(DpadDown),
    0xFF55 := NamedKey(AppSwitch),
    0xFF56 := StatusBar
  ]

  /** Ctrl+Alt+Del or Ctrl+Shift+Esc is held. */
  predicate ComboHeld(m: Modifiers)
  {
    (m.ctrl && m.alt && m.del) || (m.ctrl && m.shift && m.esc)
  }

  /** The command a key event asks for, given the modifiers after the
      event's own update: a special key on press first, then nothing while
      a combination is held, then the generic key event on press. */
  function KeyDispatch(m: Modifiers, keysym: Int64, down: Int32): (c: Option<Command>)
    ensures c.Some? <==> down != 0 && (keysym in SpecialKeys || !ComboHeld(m))
    ensures c.Some? && keysym in SpecialKeys ==> c.value == SpecialKeys[keysym]
    ensures c.Some? && keysym !in SpecialKeys ==> c.value == KeyCode(keysym)
  {
    if down != 0 && keysym in SpecialKeys then Some(SpecialKeys[keysym])
    else if ComboHeld(m) then None
    else if down != 0 then Some(KeyCode(keysym))
    else None
  }

  /** `onKeyEvent` on the modifier state. */
  function KeyStep(m: Modifiers, keysym: Int64, down: Int32, writeFails: bool): (o: Outcome<Modifiers>)
    ensures |o.written| <= 1
  {
    var m' := UpdateModifiers(m, keysym, down);
    var c := KeyDispatch(m', keysym, down);
    Outcome(m', if c.Some? && !writeFails then [c.value] else [])
  }

  /** Each modifier flag follows the press and release of its own keysyms
      only; any other keysym leaves all five flags as they were. */
  lemma ModifierTracksOwnKeysym(m: Modifiers, keysym: Int64, down: Int32, writeFails: bool)
    ensures var m' := KeyStep(m, keysym, down, writeFails).state;
      && m'.ctrl == (if keysym == 0xFFE3 then down != 0 else m.ctrl)
      && m'.alt == (if keysym == 0xFFE9 || keysym == 0xFF7E then down != 0 else m.alt)
      && m'.shift == (if keysym == 0xFFE1 then down != 0 else m.shift)
      && m'.del == (if keysym == 0xFFFF then down != 0 else m.del)
      && m'.esc == (if keysym == 0xFF1B then down != 0 else m.esc)
      && (!IsModifierKeysym(keysym) ==> m' == m)
  {
  }

  /** A key release never writes a command. */
  lemma KeyReleaseWritesNothing(m: Modifiers, keysym: Int64, writeFails: bool)
    ensures KeyStep(m, keysym, 0, writeFails).written == []
  {
  }

  /** A special key press sends its fixed command, even while a
      combination is held. */
  lemma SpecialKeyWins(m: Modifiers, keysym: Int64, down: Int32)
    requires down != 0 && keysym in SpecialKeys
    ensures KeyStep(m, keysym, down, false).written == [SpecialKeys[keysym]]
  {
  }

  /** While Ctrl+Alt+Del or Ctrl+Shift+Esc is held, counting the event's
      own key, any other key press is swallowed. */
  lemma ComboSwallowsKey(m: Modifiers, keysym: Int64, down: Int32, writeFails: bool)
    requires keysym !in SpecialKeys
    requires ComboHeld(UpdateModifiers(m, keysym, down))
    ensures KeyStep(m, keysym, down, writeFails).written == []
  {
  }

  /** Any other key press writes `input keyevent <keysym>`. */
  lemma GenericKeyEvent(m: Modifiers, keysym: Int64, down: Int32)
    requires down != 0 && keysym !in SpecialKeys
    requires !ComboHeld(UpdateModifiers(m, keysym, down))
    ensures KeyStep(m, keysym, down, false).written == [KeyCode(keysym)]
  {
  }

  /** When a key event writes something, in both directions. */
  lemma KeyWritesIff(m: Modifiers, keysym: Int64, down: Int32, writeFails: bool)
    ensures KeyStep(m, keysym, down, writeFails).written != []
        <==> down != 0 && !writeFails
             && (keysym in SpecialKeys || !ComboHeld(UpdateModifiers(m, keysym, down)))
  {
  }

  /** Pressing Del while Ctrl and Alt are held writes nothing: the flags are
      updated before the combination is checked. */
  lemma CtrlAltDelSwallowed(m: Modifiers, down: Int32, writeFails: bool)
    requires m.ctrl && m.alt && down != 0
    ensures KeyStep(m, XkDelete, down, writeFails).written == []
    ensures KeyStep(m, XkDelete, down, writeFails).state.del
  {
  }

  /** The special table holds exactly Tab, Return, Home, the arrows, Page Up
      and Page Down, and no modifier key, so special keys never change the
      modifier flags. */
  lemma SpecialKeysyms(keysym: Int64)
    ensures keysym in SpecialKeys <==> keysym == 0xFF09 || keysym == 0xFF0D || 0xFF50 <= keysym <= 0xFF56
    ensures keysym in SpecialKeys ==> !IsModifierKeysym(keysym)
  {
  }
}
