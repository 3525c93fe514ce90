/** InputService itself: its static fields become the fields of one object
    and its handlers methods that update them in place. `writeCommand`
    appends to `written`; its exception is the `writeFails` argument, and
    the handler's `catch` is the early end of the method. */
module InputServiceModel {
  import opened JavaInts
  import opened Commands
  import opened Classifier
  import opened Traces

  class InputService {
    var buttonOneDown: bool
    var swipeStart: Point
    var swipeEnd: Point
    var lastGestureStartTime: Int64

    var keyCtrlDown: bool
    var keyAltDown: bool
    var keyShiftDown: bool
    var keyDelDown: bool
    var keyEscDown: bool

    /** Every command sent to the root shell, in order. */
    var written: seq<Command>

    /** Every call so far. */
    ghost var history: seq<Event>

    function Pointer(): PointerState
      reads this
    {
      PointerState(buttonOneDown, swipeStart, swipeEnd, lastGestureStartTime)
    }

    function Keys(): Modifiers
      reads this
    {
      Modifiers(keyCtrlDown, keyAltDown, keyShiftDown, keyDelDown, keyEscDown)
    }

    /** The fields and the log are what the calls so far produce from the
        initial state. */
    ghost predicate Valid()
      reads this
    {
      Run(InitialState, history) == Outcome(ServiceState(Pointer(), Keys()), written)
    }

    /** The static fields before the first call: Java's default values. */
    constructor ()
      ensures Valid() && history == [] && written == []
      ensures Pointer() == InitialPointer && Keys() == InitialModifiers
    {
      buttonOneDown := false;
      swipeStart, swipeEnd := Point(0, 0), Point(0, 0);
      lastGestureStartTime := 0;
      keyCtrlDown, keyAltDown, keyShiftDown, keyDelDown, keyEscDown := false, false, false, false, false;
      written := [];
      history := [];
    }

    /** Sends one line to the root shell; `ok` is false when the write throws. */
    method WriteCommand(command: Command, fails: bool) returns (ok: bool)
      modifies this`written
      ensures ok == !fails
      ensures written == old(written) + (if ok then [command] else [])
    {
      if fails {
        ok := false;
      } else {
        written := written + [command];
        ok := true;
      }
    }

    method StartGesture(x: Int32, y: Int32, now: Int64)
      modifies this`swipeStart, this`lastGestureStartTime
      ensures swipeStart == Point(x, y) && lastGestureStartTime == now
    {
      swipeStart := Point(x, y);
      lastGestureStartTime := now;
    }

    /** Writes the tap or swipe of the gesture in flight; `ok` is false when
        the write throws. */
    method EndGesture(x: Int32, y: Int32, now: Int64, writeFails: bool) returns (ok: bool)
      modifies this`swipeEnd, this`written
      ensures swipeEnd == Point(x, y) && ok == !writeFails
      ensures written == old(written)
        + (if ok then [GestureCommand(swipeStart, Point(x, y), Elapsed(Pointer(), now))] else [])
    {
      swipeEnd := Point(x, y);
      var time := WrapLong(now - lastGestureStartTime);
      if swipeEnd == swipeStart && time < TapTimeoutMs {
        ok := WriteCommand(Tap(swipeStart.x, swipeStart.y), writeFails);
      } else {
        ok := WriteCommand(Swipe(swipeStart.x, swipeStart.y, swipeEnd.x, swipeEnd.y, time), writeFails);
      }
    }

    /** Right button: the body is empty, so nothing changes. */
    method LongPress(x: Int32, y: Int32)
      ensures unchanged(this)
    {
    }

    /** Mouse wheel: the body is empty, so nothing changes. */
    method Scroll(x: Int32, y: Int32, scrollAmount: Int32)
      ensures unchanged(this)
    {
    }

    /** The left-button part of `onPointerEvent`: a press starts a gesture,
        a release ends it. `ok` is false when the release's write throws,
        which skips the rest of the handler. */
    method TrackButtonOne(buttonMask: Int32, x: Int32, y: Int32, now: Int64, writeFails: bool) returns (ok: bool)
      modifies this`buttonOneDown, this`swipeStart, this`swipeEnd, this`lastGestureStartTime, this`written
      ensures var o := PointerStep(old(Pointer()), buttonMask, x, y, now, writeFails);
        Pointer() == o.state && written == old(written) + o.written
      ensures ok <==> !(writeFails && !ButtonPressed(buttonMask, 0) && old(buttonOneDown))
    {
      ok := true;
      // a press starts a gesture
      if ButtonPressed(buttonMask, 0) && !buttonOneDown {
        StartGesture(x, y, now);
        buttonOneDown := true;
      }
      // a release ends the gesture in flight
      if !ButtonPressed(buttonMask, 0) && buttonOneDown {
        ok := EndGesture(x, y, now, writeFails);
        if ok {
          buttonOneDown := false;
        }
      }
    }

    /** A RFB PointerEvent (section 7.5.5 of RFC 6143). */
    method OnPointerEvent(buttonMask: Int32, x: Int32, y: Int32, now: Int64, heightPixels: Int32, writeFails: bool)
      requires Valid()
      modifies this
      ensures Valid() && history == old(history) + [PointerEvent(buttonMask, x, y, now, writeFails)]
      ensures var o := PointerStep(old(Pointer()), buttonMask, x, y, now, writeFails);
        Pointer() == o.state && written == old(written) + o.written
      ensures Keys() == old(Keys())
    {
      ghost var e := PointerEvent(buttonMask, x, y, now, writeFails);
      RunSnoc(InitialState, history, e);
      var ok := TrackButtonOne(buttonMask, x, y, now, writeFails);
      if ok {
        // bit 2: long press
        if ButtonPressed(buttonMask, 2) {
          LongPress(x, y);
        }
        // bit 3: wheel towards the top
        if ButtonPressed(buttonMask, 3) {
          Scroll(x, y, ScrollAmount(heightPixels, true));
        }
        // bit 4: wheel towards the bottom
        if ButtonPressed(buttonMask, 4) {
          Scroll(x, y, ScrollAmount(heightPixels, false));
        }
      }
      history := history + [e];
    }

    /** The modifier bookkeeping at the head of `onKeyEvent`. */
    method SaveModifierStates(down: Int32, keysym: Int64)
      modifies this`keyCtrlDown, this`keyAltDown, this`keyShiftDown, this`keyDelDown, this`keyEscDown
      ensures Keys() == UpdateModifiers(old(Keys()), keysym, down)
    {
      if keysym == 0xFFE3 {
        keyCtrlDown := down != 0;
      } else if keysym == 0xFFE9 || keysym == 0xFF7E { // 0xFF7E is Mode_switch, Alt on Apple keyboards
        keyAltDown := down != 0;
      } else if keysym == 0xFFE1 {
        keyShiftDown := down != 0;
      } else if keysym == 0xFFFF {
        keyDelDown := down != 0;
      } else if keysym == 0xFF1B {
        keyEscDown := down != 0;
      }
    }

    /** The dispatch of `onKeyEvent`, on the already updated modifier flags. */
    method DispatchKey(down: Int32, keysym: Int64, writeFails: bool)
      modifies this`written
      ensures var c := KeyDispatch(Keys(), keysym, down);
        written == old(written) + (if c.Some? && !writeFails then [c.value] else [])
    {
      var ok: bool;
      if keysym == 0xFF09 && down != 0 {
        ok := WriteCommand(NamedKey(Tab), writeFails);
      } else if keysym == 0xFF0D && down != 0 {
        ok := WriteCommand(NamedKey(Enter), writeFails);
      } else if keysym == 0xFF50 && down != 0 {
        ok := WriteCommand(NamedKey(Home), writeFails);
      } else if keysym == 0xFF51 && down != 0 {
        ok := WriteCommand(NamedKey(DpadLeft), writeFails);
      } else if keysym == 0xFF52 && down != 0 {
        ok := WriteCommand(NamedKey(DpadUp), writeFails);
      } else if keysym == 0xFF53 && down != 0 {
        ok := WriteCommand(NamedKey(DpadRight), writeFails);
      } else if keysym == 0xFF54 && down != 0 {
        ok := WriteCommand(NamedKey(DpadDown), writeFails);
      } else if keysym == 0xFF55 && down != 0 {
        ok := WriteCommand(NamedKey(AppSwitch), writeFails);
      } else if keysym == 0xFF56 && down != 0 {
        ok := WriteCommand(StatusBar, writeFails);
      } else if keyCtrlDown && keyAltDown && keyDelDown {
        // Ctrl-Alt-Del: returns without writing
      } else if keyCtrlDown && keyShiftDown && keyEscDown {
        // Ctrl-Shift-Esc: recognised, nothing done
      } else if down != 0 {
        ok := WriteCommand(KeyCode(keysym), writeFails);
      }
    }

    /** A RFB KeyEvent (section 7.5.4 of RFC 6143). */
    method OnKeyEvent(down: Int32, keysym: Int64, writeFails: bool)
      requires Valid()
      modifies this
      ensures Valid() && history == old(history) + [KeyEvent(down, keysym, writeFails)]
      ensures var o := KeyStep(old(Keys()), keysym, down, writeFails);
        Keys() == o.state && written == old(written) + o.written
      ensures Pointer() == old(Pointer())
    {
      ghost var e := KeyEvent(down, keysym, writeFails);
      RunSnoc(InitialState, history, e);
      SaveModifierStates(down, keysym);
      DispatchKey(down, keysym, writeFails);
      history := history + [e];
    }
  }

  /** Reads `mIsButtonOneDown` of a service in any reachable state. Through
      `Valid()` the stream properties hold of the object: the flag follows
      the last pointer event whose write succeeded, and while no event has
      pressed the left button the flag is clear and no tap or swipe has
      been written. */
  method ButtonOneDown(service: InputService) returns (down: bool)
    requires service.Valid()
    ensures var last := LastPointerEvent(service.history);
      last.Some? && !last.value.writeFails ==> down == ButtonPressed(last.value.buttonMask, 0)
    ensures NeverPressed(service.history) ==>
      !down && forall i :: 0 <= i < |service.written| ==> !IsGesture(service.written[i])
  {
    var last := LastPointerEvent(service.history);
    if last.Some? && !last.value.writeFails {
      ButtonFlagFollowsLastPointerEvent(InitialState, service.history);
    }
    if NeverPressed(service.history) {
      NoGestureWithoutPress(InitialState, service.history);
    }
    down := service.buttonOneDown;
  }

  /** A client: a click at one point writes one tap. */
  method ClickSession() returns (log: seq<Command>)
    ensures log == [Tap(100, 100)]
  {
    var service := new InputService();
    assert ButtonPressed(1, 0) && !ButtonPressed(0, 0);
    service.OnPointerEvent(1, 100, 100, 1000, 2000, false);
    assert service.written == [];
    service.OnPointerEvent(0, 100, 100, 1050, 2000, false);
    log := service.written;
  }

  /** A client: a key press while the shell is gone is lost; the same press
      again is sent. */
  method LostKeySession() returns (log: seq<Command>)
    ensures log == [KeyCode(0x61)]
  {
    var service := new InputService();
    assert UpdateModifiers(InitialModifiers, 0x61, 1) == InitialModifiers;
    KeyWritesIff(InitialModifiers, 0x61, 1, true);
    GenericKeyEvent(InitialModifiers, 0x61, 1);
    service.OnKeyEvent(1, 0x61, true);
    assert service.written == [];
    service.OnKeyEvent(1, 0x61, false);
    log := service.written;
  }

  /** A client: holding Ctrl and Alt and pressing Del writes nothing for the
      Del press, and the pointer state stays as it was. */
  method CtrlAltDelSession() returns (log: seq<Command>, pointer: PointerState)
    ensures log == [KeyCode(XkControlL), KeyCode(XkAltL)]
    ensures pointer == InitialPointer
  {
    var service := new InputService();
    service.OnKeyEvent(1, XkControlL, false);
    service.OnKeyEvent(1, XkAltL, false);
    service.OnKeyEvent(1, XkDelete, false);
    log, pointer := service.written, service.Pointer();
  }
}
