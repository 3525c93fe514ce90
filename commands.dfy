/** The shell commands InputService writes to its root shell, as values,
    and the exact text line each one becomes. */
module Commands {
  import opened JavaInts
  import opened Options
  import opened Decimal

  /** `android.graphics.Point`; two points are `equals` when both
      coordinates agree, which is datatype equality here. */
  datatype Point = Point(x: Int32, y: Int32)

  /** The Android key events that the special-key table sends by name. */
  datatype AndroidKey = Tab | Enter | Home | DpadLeft | DpadUp | DpadRight | DpadDown | AppSwitch

  datatype Command =
    | Tap(x: Int32, y: Int32)
    | Swipe(x1: Int32, y1: Int32, x2: Int32, y2: Int32, durationMs: Int64)
    | NamedKey(key: AndroidKey)
    | KeyCode(keysym: Int64)
    | StatusBar

  function KeycodeName(k: AndroidKey): string
  {
    match k
    case Tab => "KEYCODE_TAB"
    case Enter => "KEYCODE_ENTER"
    case Home => "KEYCODE_HOME"
    case DpadLeft => "KEYCODE_DPAD_LEFT"
    case DpadUp => "KEYCODE_DPAD_UP"
    case DpadRight => "KEYCODE_DPAD_RIGHT"
    case DpadDown => "KEYCODE_DPAD_DOWN"
    case AppSwitch => "KEYCODE_APP_SWITCH"
  }

  /** The source puts the first three key names in double quotes. */
  predicate QuotedName(k: AndroidKey) { k == Tab || k == Enter || k == Home }

  /** A character that `getBytes("ASCII")` encodes as itself and that does
      not end the shell's input line. */
  predicate IsLineChar(c: char) { c as int < 128 && c != '\n' }

  predicate IsLine(s: string) { forall i :: 0 <= i < |s| ==> IsLineChar(s[i]) }

  lemma ConcatLine(a: string, b: string)
    requires IsLine(a) && IsLine(b)
    ensures IsLine(a + b)
  {
    assert forall i :: 0 <= i < |a + b| ==> (a + b)[i] == if i < |a| then a[i] else b[i - |a|];
  }

  function Num(n: int): (s: string)
    ensures IsLine(s)
  {
    IntString(n)
  }

  /** The text `writeCommand` receives for a command. */
  function Render(c: Command): string
  {
    match c
    case Tap(x, y) =>
      "/system/bin/input tap " + Num(x) + " " + Num(y)
    case Swipe(x1, y1, x2, y2, ms) =>
      "/system/bin/input swipe " + Num(x1) + " " + Num(y1) + " " + Num(x2) + " " + Num(y2) + " " + Num(ms)
    case NamedKey(k) =>
      if QuotedName(k) then "input keyevent \"" + KeycodeName(k) + "\""
      else "input keyevent " + KeycodeName(k)
    case KeyCode(keysym) =>
      "input keyevent " + Num(keysym)
    case StatusBar =>
      "service call statusbar 1"
  }

  /** The generic key event carries the keysym itself: the text after
      `input keyevent ` reads back as the keysym. */
  lemma KeyCodeLineRoundTrip(keysym: Int64)
    ensures var r := Render(KeyCode(keysym));
      |r| > 15 && r[..15] == "input keyevent " && ParseInt(r[15..]) == Some(keysym)
  {
    IntStringRoundTrip(keysym);
    assert Render(KeyCode(keysym))[15..] == IntString(keysym);
  }

  /** `a + " " + b` is a line when `a` and `b` are. */
  lemma SpacedLine(a: string, b: string)
    requires IsLine(a) && IsLine(b)
    ensures IsLine(a + " " + b)
  {
    ConcatLine(a, " ");
    ConcatLine(a + " ", b);
  }

  lemma SwipeIsLine(x1: Int32, y1: Int32, x2: Int32, y2: Int32, ms: Int64)
    ensures IsLine(Render(Swipe(x1, y1, x2, y2, ms)))
  {
    var t := "/system/bin/input swipe " + Num(x1);
    ConcatLine("/system/bin/input swipe ", Num(x1));
    SpacedLine(t, Num(y1));
    SpacedLine(t + " " + Num(y1), Num(x2));
    SpacedLine(t + " " + Num(y1) + " " + Num(x2), Num(y2));
    SpacedLine(t + " " + Num(y1) + " " + Num(x2) + " " + Num(y2), Num(ms));
  }

  lemma NamedKeyIsLine(k: AndroidKey)
    ensures IsLine(Render(NamedKey(k)))
  {
    var name := KeycodeName(k);
    assert IsLine(name);
    if QuotedName(k) {
      ConcatLine("input keyevent \"", name);
      ConcatLine("input keyevent \"" + name, "\"");
    } else {
      ConcatLine("input keyevent ", name);
    }
  }

  /** Every command is one line of ASCII text, so `getBytes("ASCII")`
      sends it unchanged and the shell reads it as exactly one command. */
  lemma RenderIsLine(c: Command)
    ensures IsLine(Render(c))
  {
    match c
    case Tap(x, y) =>
      ConcatLine("/system/bin/input tap ", Num(x));
      SpacedLine("/system/bin/input tap " + Num(x), Num(y));
    case Swipe(x1, y1, x2, y2, ms) =>
      SwipeIsLine(x1, y1, x2, y2, ms);
    case NamedKey(k) =>
      NamedKeyIsLine(k);
    case KeyCode(keysym) =>
      ConcatLine("input keyevent ", Num(keysym));
    case StatusBar =>
  }

  /** The bytes written to the shell's standard input for a sequence of
      commands: each command followed by a newline. */
  function Transcript(cmds: seq<Command>): string
    decreases |cmds|
  {
    if cmds == [] then ""
    else Transcript(cmds[..|cmds| - 1]) + Render(cmds[|cmds| - 1]) + "\n"
  }

  function NewlineCount(s: string): nat
    decreases |s|
  {
    if s == [] then 0
    else NewlineCount(s[..|s| - 1]) + (if s[|s| - 1] == '\n' then 1 else 0)
  }

  lemma {:induction false} NewlineCountAppend(a: string, b: string)
    ensures NewlineCount(a + b) == NewlineCount(a) + NewlineCount(b)
    decreases |b|
  {
    if b == [] {
      assert a + b == a;
    } else {
      var b' := b[..|b| - 1];
      assert (a + b)[..|a + b| - 1] == a + b';
      assert (a + b)[|a + b| - 1] == b[|b| - 1];
      NewlineCountAppend(a, b');
    }
  }

  lemma {:induction false} LineHasNoNewline(s: string)
    requires IsLine(s)
    ensures NewlineCount(s) == 0
    decreases |s|
  {
    if s != [] {
      LineHasNoNewline(s[..|s| - 1]);
    }
  }

  /** The shell's input holds exactly one line per command written. */
  lemma {:induction false} TranscriptLineCount(cmds: seq<Command>)
    ensures NewlineCount(Transcript(cmds)) == |cmds|
    decreases |cmds|
  {
    if cmds != [] {
      var prefix, last := cmds[..|cmds| - 1], cmds[|cmds| - 1];
      TranscriptLineCount(prefix);
      RenderIsLine(last);
      LineHasNoNewline(Render(last));
      NewlineCountAppend(Transcript(prefix), Render(last));
      NewlineCountAppend(Transcript(prefix) + Render(last), "\n");
    }
  }

  // The exact lines some commands put on the shell's input.

  lemma TapLineScenario()
    ensures Render(Tap(100, 100)) == "/system/bin/input tap 100 100"
  {
    assert NatString(100) == "100";
  }

  lemma SwipeLineScenario()
    ensures Render(Swipe(10, 10, 200, 10, 300)) == "/system/bin/input swipe 10 10 200 10 300"
  {
    assert NatString(10) == "10";
    assert NatString(200) == "200";
    assert NatString(300) == "300";
  }

  lemma NamedKeyLineScenario()
    ensures Render(NamedKey(Tab)) == "input keyevent \"KEYCODE_TAB\""
  {
  }

  lemma KeyCodeLineScenario()
    ensures Render(KeyCode(0xFFFF)) == "input keyevent 65535"
  {
    assert NatString(65535) == "65535";
  }
}
