/** InputService over a stream of events from the VNC server: key and
    pointer events interleaved, each handled to completion in turn. */
module Traces {
  import opened JavaInts
  import opened Commands
  import opened Classifier

  /** One call into InputService, with what the platform answers during it. */
  datatype Event =
    | PointerEvent(buttonMask: Int32, x: Int32, y: Int32, now: Int64, writeFails: bool)
    | KeyEvent(down: Int32, keysym: Int64, writeFails: bool)

  /** All the static state of InputService that outlives a call. */
  datatype ServiceState = ServiceState(pointer: PointerState, keys: Modifiers)

  const InitialState := ServiceState(InitialPointer, InitialModifiers)

  /** One call: a pointer event drives only the pointer classifier, a key
      event only the key classifier. */
  function Step(s: ServiceState, e: Event): (o: Outcome<ServiceState>)
    ensures |o.written| <= 1
    ensures e.PointerEvent? ==> o.state.keys == s.keys
    ensures e.KeyEvent? ==> o.state.pointer == s.pointer
  {
    match e
    case PointerEvent(buttonMask, x, y, now, writeFails) =>
      var p := PointerStep(s.pointer, buttonMask, x, y, now, writeFails);
      Outcome(s.(pointer := p.state), p.written)
    case KeyEvent(down, keysym, writeFails) =>
      var k := KeyStep(s.keys, keysym, down, writeFails);
      Outcome(s.(keys := k.state), k.written)
  }

  /** The calls in order, each handled by `step`, from state `s`; the log
      is everything written, call by call. */
  function Fold<S(!new)>(step: (S, Event) -> Outcome<S>, s: S, events: seq<Event>): (o: Outcome<S>)
    requires forall t, e :: |step(t, e).written| <= 1
    ensures |o.written| <= |events|
    decreases |events|
  {
    if events == [] then Outcome(s, [])
    else
      var before := Fold(step, s, events[..|events| - 1]);
      var last := step(before.state, events[|events| - 1]);
      Outcome(last.state, before.written + last.written)
  }

  /** Folding two streams one after the other is folding their
      concatenation, whatever the step. */
  lemma {:induction false} FoldAppend<S(!new)>(step: (S, Event) -> Outcome<S>, s: S, a: seq<Event>, b: seq<Event>)
    requires forall t, e :: |step(t, e).written| <= 1
    ensures var first := Fold(step, s, a);
      var second := Fold(step, first.state, b);
      Fold(step, s, a + b) == Outcome(second.state, first.written + second.written)
    decreases |b|
  {
    if b == [] {
      assert a + b == a;
    } else {
      var b', e := b[..|b| - 1], b[|b| - 1];
      assert (a + b)[..|a + b| - 1] == a + b';
      assert (a + b)[|a + b| - 1] == e;
      FoldAppend(step, s, a, b');
      var first := Fold(step, s, a);
      var mid := Fold(step, first.state, b');
      var last := step(mid.state, e);
      assert first.written + (mid.written + last.written) == (first.written + mid.written) + last.written;
    }
  }

  /** The calls in order; the log is everything `writeCommand` sent. */
  function Run(s: ServiceState, events: seq<Event>): (o: Outcome<ServiceState>)
    ensures |o.written| <= |events|
  {
    Fold(Step, s, events)
  }

  /** One more call extends the log by what that call writes. */
  lemma RunSnoc(s: ServiceState, events: seq<Event>, e: Event)
    ensures var before := Run(s, events);
      var last := Step(before.state, e);
      Run(s, events + [e]) == Outcome(last.state, before.written + last.written)
  {
    assert (events + [e])[..|events|] == events;
  }

  /** A single call is one step from the given state. */
  lemma RunOne(s: ServiceState, e: Event)
    ensures Run(s, [e]) == Step(s, e)
  {
    RunSnoc(s, [], e);
    assert [] + [e] == [e];
  }

  /** Running two streams one after the other is running their concatenation. */
  lemma RunAppend(s: ServiceState, a: seq<Event>, b: seq<Event>)
    ensures var first := Run(s, a);
      var second := Run(first.state, b);
      Run(s, a + b) == Outcome(second.state, first.written + second.written)
  {
    FoldAppend(Step, s, a, b);
  }

  /** The two classifiers are independent: the modifier flags after a stream
      do not depend on the pointer state, and the pointer state does not
      depend on the modifier flags. */
  lemma {:induction false} ClassifiersIndependent(s1: ServiceState, s2: ServiceState, events: seq<Event>)
    ensures s1.keys == s2.keys ==> Run(s1, events).state.keys == Run(s2, events).state.keys
    ensures s1.pointer == s2.pointer ==> Run(s1, events).state.pointer == Run(s2, events).state.pointer
    decreases |events|
  {
    if events != [] {
      ClassifiersIndependent(s1, s2, events[..|events| - 1]);
    }
  }

  /** The last pointer event of a stream, if any. */
  function LastPointerEvent(events: seq<Event>): (e: Options.Option<Event>)
    ensures e.Some? ==> e.value.PointerEvent? && e.value in events
    decreases |events|
  {
    if events == [] then Options.None
    else if events[|events| - 1].PointerEvent? then Options.Some(events[|events| - 1])
    else LastPointerEvent(events[..|events| - 1])
  }

  /** After a stream, `mIsButtonOneDown` equals bit 0 of the last pointer
      event's mask, whatever key events followed it, provided that event's
      write did not fail. */
  lemma {:induction false} ButtonFlagFollowsLastPointerEvent(s: ServiceState, events: seq<Event>)
    requires LastPointerEvent(events).Some?
    requires !LastPointerEvent(events).value.writeFails
    ensures Run(s, events).state.pointer.buttonOneDown
         == ButtonPressed(LastPointerEvent(events).value.buttonMask, 0)
    decreases |events|
  {
    var last := events[|events| - 1];
    var before := Run(s, events[..|events| - 1]);
    if last.PointerEvent? {
      ButtonFlagFollowsMask(before.state.pointer, last.buttonMask, last.x, last.y, last.now, last.writeFails);
    } else {
      ButtonFlagFollowsLastPointerEvent(s, events[..|events| - 1]);
    }
  }

  predicate IsGesture(c: Command) { c.Tap? || c.Swipe? }

  predicate NeverPressed(events: seq<Event>)
  {
    forall i :: 0 <= i < |events| && events[i].PointerEvent? ==> !ButtonPressed(events[i].buttonMask, 0)
  }

  /** A release with no press before it writes nothing: a tap or a swipe is
      written only after some event has set bit 0. */
  lemma {:induction false} NoGestureWithoutPress(s: ServiceState, events: seq<Event>)
    requires !s.pointer.buttonOneDown
    requires NeverPressed(events)
    ensures !Run(s, events).state.pointer.buttonOneDown
    ensures forall i :: 0 <= i < |Run(s, events).written| ==> !IsGesture(Run(s, events).written[i])
    decreases |events|
  {
    if events != [] {
      var prefix := events[..|events| - 1];
      assert NeverPressed(prefix) by {
        forall i | 0 <= i < |prefix| && prefix[i].PointerEvent?
          ensures !ButtonPressed(prefix[i].buttonMask, 0)
        {
          assert prefix[i] == events[i];
        }
      }
      NoGestureWithoutPress(s, prefix);
      var before := Run(s, prefix);
      var last := events[|events| - 1];
      if last.PointerEvent? {
        assert !ButtonPressed(events[|events| - 1].buttonMask, 0);
        NoEdgeNoChange(before.state.pointer, last.buttonMask, last.x, last.y, last.now, last.writeFails);
      }
    }
  }

  // Scenarios of the pointer and key classifiers, from the initial state.

  /** Press and release at (100,100) 50 ms apart: a tap. */
  lemma TapScenario()
    ensures Run(InitialState, [PointerEvent(1, 100, 100, 0, false), PointerEvent(0, 100, 100, 50, false)]).written
         == [Tap(100, 100)]
  {
    var press, release := PointerEvent(1, 100, 100, 0, false), PointerEvent(0, 100, 100, 50, false);
    ButtonOneIsOddMask(1);
    ButtonOneIsOddMask(0);
    RunOne(InitialState, press);
    RunSnoc(InitialState, [press], release);
    assert [press] + [release] == [press, release];
  }

  /** Press at (10,10), release at (200,10) 300 ms later: a swipe. */
  lemma SwipeScenario()
    ensures Run(InitialState, [PointerEvent(1, 10, 10, 0, false), PointerEvent(0, 200, 10, 300, false)]).written
         == [Swipe(10, 10, 200, 10, 300)]
  {
    var press, release := PointerEvent(1, 10, 10, 0, false), PointerEvent(0, 200, 10, 300, false);
    ButtonOneIsOddMask(1);
    ButtonOneIsOddMask(0);
    RunOne(InitialState, press);
    RunSnoc(InitialState, [press], release);
    assert [press] + [release] == [press, release];
  }

  /** Press and release at one point 250 ms apart: too slow for a tap. */
  lemma SlowTapIsSwipeScenario()
    ensures Run(InitialState, [PointerEvent(1, 5, 5, 1000, false), PointerEvent(0, 5, 5, 1250, false)]).written
         == [Swipe(5, 5, 5, 5, 250)]
  {
    var press, release := PointerEvent(1, 5, 5, 1000, false), PointerEvent(0, 5, 5, 1250, false);
    ButtonOneIsOddMask(1);
    ButtonOneIsOddMask(0);
    RunOne(InitialState, press);
    RunSnoc(InitialState, [press], release);
    assert [press] + [release] == [press, release];
  }

  /** Ctrl, Alt, then Del: the modifier presses pass through as key events,
      the Del press is swallowed. */
  lemma CtrlAltDelScenario()
    ensures Run(InitialState, [KeyEvent(1, XkControlL, false), KeyEvent(1, XkAltL, false), KeyEvent(1, XkDelete, false)]).written
         == [KeyCode(XkControlL), KeyCode(XkAltL)]
  {
    var ctrl, alt, del := KeyEvent(1, XkControlL, false), KeyEvent(1, XkAltL, false), KeyEvent(1, XkDelete, false);
    RunOne(InitialState, ctrl);
    RunSnoc(InitialState, [ctrl], alt);
    assert [ctrl] + [alt] == [ctrl, alt];
    RunSnoc(InitialState, [ctrl, alt], del);
    assert [ctrl, alt] + [del] == [ctrl, alt, del];
  }

  /** Ctrl released before Del is pressed: Del passes through. */
  lemma CtrlReleasedScenario()
    ensures Run(InitialState, [KeyEvent(1, XkControlL, false), KeyEvent(1, XkAltL, false),
                               KeyEvent(0, XkControlL, false), KeyEvent(1, XkDelete, false)]).written
         == [KeyCode(XkControlL), KeyCode(XkAltL), KeyCode(XkDelete)]
  {
    var ctrl, alt := KeyEvent(1, XkControlL, false), KeyEvent(1, XkAltL, false);
    var ctrlUp, del := KeyEvent(0, XkControlL, false), KeyEvent(1, XkDelete, false);
    RunOne(InitialState, ctrl);
    RunSnoc(InitialState, [ctrl], alt);
    assert [ctrl] + [alt] == [ctrl, alt];
    RunSnoc(InitialState, [ctrl, alt], ctrlUp);
    assert [ctrl, alt] + [ctrlUp] == [ctrl, alt, ctrlUp];
    RunSnoc(InitialState, [ctrl, alt, ctrlUp], del);
    assert [ctrl, alt, ctrlUp] + [del] == [ctrl, alt, ctrlUp, del];
  }

  /** Tab pressed then released: one fixed Tab command. */
  lemma TabScenario()
    ensures Run(InitialState, [KeyEvent(1, 0xFF09, false), KeyEvent(0, 0xFF09, false)]).written
         == [NamedKey(Tab)]
  {
    var press, release := KeyEvent(1, 0xFF09, false), KeyEvent(0, 0xFF09, false);
    RunOne(InitialState, press);
    RunSnoc(InitialState, [press], release);
    assert [press] + [release] == [press, release];
  }
}
