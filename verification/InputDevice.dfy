/** The virtual input device of src/vncflinger/InputDevice.cpp: a class whose methods
    append to the uinput stream, and the function `Step` that says, call by call,
    what state and what stream they leave. */
module Input {
  import opened Keymap
  import opened InputStream
  import opened KeyTranslation

  /** An int32_t pointer coordinate. Differences of coordinates are plain integers here; those
      of positions inside an axis, which is all AndroidDesktop sends, fit in an int32_t. */
  type Coord = c: int | -0x8000_0000 <= c < 0x8000_0000

  /** What the uinput system calls of start answer: opening /dev/uinput fails, a later
      ioctl or write fails, or the device is created. */
  datatype StartOutcome = OpenFails | SetupFails | Created

  datatype Call =
    | KeyEvent(down: bool, keysym: int)
    | PointerEvent(mask: int, x: Coord, y: Coord)
    | Start(width: int, height: int, touch: bool, relative: bool, outcome: StartOutcome)
    | Stop

  datatype Device = Device(
    fdOpen: bool, ready: bool,
    left: bool, middle: bool, right: bool, lastX: int, lastY: int,
    touch: bool, relative: bool,
    log: seq<Entry>)

  /** Bit i of a button mask, as `mask & (1 << i)` reads it. */
  predicate Bit(mask: int, i: nat)
    requires i <= 4
  {
    (mask / (if i == 0 then 1 else if i == 1 then 2 else if i == 2 then 4 else if i == 3 then 8 else 16)) % 2 == 1
  }

  /** Writes to a closed descriptor fail and leave no trace. */
  function Written(fdOpen: bool, log: seq<Entry>, es: seq<Entry>): seq<Entry> {
    if fdOpen then log + es else log
  }

  lemma WrittenTwice(fdOpen: bool, log: seq<Entry>, a: seq<Entry>, b: seq<Entry>)
    ensures Written(fdOpen, Written(fdOpen, log, a), b) == Written(fdOpen, log, a + b)
  {
    assert (log + a) + b == log + (a + b);
  }

  // ---- The stream of one PointerEvent (section 7.5.5 of RFC 6143) ----

  function Position(relative: bool, x: int, y: int): seq<Entry> {
    if relative then [] else [Abs(ABS_X, x), Abs(ABS_Y, y)]
  }

  function Motion(d: Device, x: int, y: int): seq<Entry> {
    if d.touch then []
    else if d.relative then [Rel(REL_X, x - d.lastX), Rel(REL_Y, y - d.lastY), Syn]
    else [Abs(ABS_X, x), Abs(ABS_Y, y), Syn]
  }

  /** One button: a press or a release when the mask and the tracked flag differ (the left
      button reports the position with it), else a drag report while it stays down. */
  function Button(relative: bool, code: int, was: bool, now: bool, reportPosition: bool, x: int, y: int): seq<Entry> {
    if now != was then
      Position(relative || !reportPosition, x, y) + [Key(code, if now then 1 else 0), Syn]
    else if was && !relative then [Abs(ABS_X, x), Abs(ABS_Y, y), Syn]
    else []
  }

  function LeftCode(touch: bool): int { if touch then BTN_TOUCH else BTN_LEFT }

  function RightCode(touch: bool): int { if touch then KEY_BACK else BTN_RIGHT }

  function MiddleCode(touch: bool): int { if touch then KEY_END else BTN_MIDDLE }

  function Wheel(mask: int): seq<Entry> {
    (if Bit(mask, 3) then [Rel(REL_WHEEL, 1), Syn] else []) +
    (if Bit(mask, 4) then [Rel(REL_WHEEL, -1), Syn] else [])
  }

  /** The source treats the buttons in the order left, right, middle. */
  function ButtonsOutput(d: Device, left: bool, middle: bool, right: bool, x: int, y: int): seq<Entry> {
    Button(d.relative, LeftCode(d.touch), d.left, left, true, x, y) + (
    Button(d.relative, RightCode(d.touch), d.right, right, false, x, y) +
    Button(d.relative, MiddleCode(d.touch), d.middle, middle, false, x, y))
  }

  function PointerOutput(d: Device, mask: int, x: int, y: int): seq<Entry> {
    Motion(d, x, y) + (ButtonsOutput(d, Bit(mask, 0), Bit(mask, 1), Bit(mask, 2), x, y) + Wheel(mask))
  }

  // ---- The effect of one call ----

  function StartStep(d: Device, width: int, height: int, touch: bool, relative: bool, outcome: StartOutcome): Device {
    var reset := d.(left := false, middle := false, right := false, lastX := 0, lastY := 0,
                    touch := touch, relative := relative);
    if d.fdOpen || outcome != Created then reset
    else reset.(fdOpen := true, ready := true, log := d.log + [Create(touch, relative, width, height)])
  }

  function StopStep(d: Device): Device {
    if d.fdOpen then d.(ready := false, fdOpen := false, log := d.log + [Destroy])
    else d.(ready := false)
  }

  function PointerStep(d: Device, mask: int, x: int, y: int): Device {
    d.(log := Written(d.fdOpen, d.log, PointerOutput(d, mask, x, y)),
      lastX := x, lastY := y, left := Bit(mask, 0), right := Bit(mask, 2), middle := Bit(mask, 1))
  }

  function Step(d: Device, call: Call): Device {
    match call
    case Start(w, h, t, r, o) => StartStep(d, w, h, t, r, o)
    case Stop => StopStep(d)
    case KeyEvent(down, keysym) =>
      if d.ready then d.(log := Written(d.fdOpen, d.log, Frames(Transitions(down, keysym)))) else d
    case PointerEvent(mask, x, y) =>
      if d.ready then PointerStep(d, mask, x, y) else d
  }

  function Run(d: Device, calls: seq<Call>): Device {
    if calls == [] then d else Step(Run(d, calls[..|calls| - 1]), calls[|calls| - 1])
  }

  lemma {:induction false} RunAppend(d: Device, a: seq<Call>, b: seq<Call>)
    ensures Run(d, a + b) == Run(Run(d, a), b)
  {
    if b == [] {
      assert a + b == a;
    } else {
      assert (a + b)[..|a + b| - 1] == a + b[..|b| - 1];
      RunAppend(d, a, b[..|b| - 1]);
    }
  }

  class InputDevice {
    var fdOpen: bool  // mFD >= 0
    var mOpened: bool
    var mLeftClicked: bool
    var mMiddleClicked: bool
    var mRightClicked: bool
    var mLastX: int
    var mLastY: int
    var touch: bool  // touch and useRelativeInput are file-level statics in the source
    var useRelativeInput: bool
    var log: seq<Entry>  // everything written through the descriptor

    function Snapshot(): Device
      reads this
    {
      Device(fdOpen, mOpened, mLeftClicked, mMiddleClicked, mRightClicked, mLastX, mLastY,
             touch, useRelativeInput, log)
    }

    /** Only mFD is initialised; the other members start with whatever memory held. */
    constructor (garbage: Device)
      ensures Snapshot() == garbage.(fdOpen := false, log := [])
    {
      fdOpen := false;
      mOpened := garbage.ready;
      mLeftClicked, mMiddleClicked, mRightClicked := garbage.left, garbage.middle, garbage.right;
      mLastX, mLastY := garbage.lastX, garbage.lastY;
      touch, useRelativeInput := garbage.touch, garbage.relative;
      log := [];
    }

    method Inject(e: Entry) returns (ok: bool)
      modifies this`log
      ensures ok == fdOpen && log == Written(fdOpen, old(log), [e])
    {
      if !fdOpen { return false; }
      log := log + [e];
      return true;
    }

    method DoKeyboardEvent(code: int, down: bool) returns (ok: bool)
      modifies this`log
      ensures ok == fdOpen && log == Written(fdOpen, old(log), Frame(Transition(code, down)))
    {
      ok := Inject(Syn);
      if down {
        ok := Inject(Key(code, 1));
        if !ok { return; }
      } else {
        ok := Inject(Key(code, 0));
        if !ok { return; }
      }
      ok := Inject(Syn);
    }

    method DoBasicKeyEvent(keysym: int, down: bool) returns (ok: bool)
      modifies this`log
      ensures log == Written(fdOpen, old(log), Frames(BasicTransitions(keysym, down)))
      ensures ok == (fdOpen && BasicScan(Truncate16(keysym)) != 0)
    {
      var code := Truncate16(keysym);
      var needShift := false;
      var scanCode := 0;
      if 'a' as int <= code <= 'z' as int { scanCode := Qwerty(code - 'a' as int); }
      if 'A' as int <= code <= 'Z' as int {
        needShift := true;
        scanCode := Qwerty(code - 'A' as int);
      }
      if '1' as int <= code <= '9' as int { scanCode := code - '1' as int + 2; }
      if code == '0' as int { scanCode := KEY_0; }
      if scanCode == 0 { return false; }
      FramesOne(Transition(scanCode, down));
      if needShift {
        FramesOne(Transition(KEY_LEFTSHIFT, down));
        FramesAppend([Transition(KEY_LEFTSHIFT, down)], [Transition(scanCode, down)]);
        ok := DoKeyboardEvent(KEY_LEFTSHIFT, down);
      } else {
        assert [] + [Transition(scanCode, down)] == [Transition(scanCode, down)];
      }
      ok := DoKeyboardEvent(scanCode, down);
    }

    /** Alt + dead key on the way down, then the base key. */
    method DoAccent(altChar: int, baseChar: int, down: bool)
      modifies this`log
      ensures log == Written(fdOpen, old(log), Frames((if down then DeadStroke(altChar) else []) + BasicTransitions(baseChar, down)))
    {
      ghost var dead := if down then DeadStroke(altChar) else [];
      FramesAppend(dead, BasicTransitions(baseChar, down));
      var ok;
      if down {
        FramesFour(dead);
        ok := DoKeyboardEvent(KEY_LEFTALT, true);
        ok := DoKeyboardEvent(altChar, true);
        ok := DoKeyboardEvent(KEY_LEFTALT, false);
        ok := DoKeyboardEvent(altChar, false);
      }
      ok := DoBasicKeyEvent(baseChar, down);
    }

    method DoSymbol(row: SymbolRow, down: bool)
      modifies this`log
      ensures log == Written(fdOpen, old(log), Frames(SymbolTransitions(row, down)))
    {
      ghost var ts := SymbolTransitions(row, down);
      var ok;
      if down {
        FramesFive(ts);
        ok := DoKeyboardEvent(KEY_LEFTALT, row.needAlt);
        ok := DoKeyboardEvent(KEY_LEFTSHIFT, row.needShift);
      } else {
        FramesOne(ts[0]);
      }
      ok := DoKeyboardEvent(row.directKey, down);
      if down {
        ok := DoKeyboardEvent(KEY_LEFTSHIFT, false);
        ok := DoKeyboardEvent(KEY_LEFTALT, false);
      }
    }

    /** What keyEvent does with the row it found. */
    method Translate(keysym: int, down: bool)
      modifies this`log
      ensures log == Written(fdOpen, old(log), Frames(Translation(keysym, down)))
    {
      var k := ScanTables(keysym);
      TypeClass(k, keysym, down);
    }

    method TypeClass(k: KeyClass, keysym: int, down: bool)
      requires ValidClass(k)
      modifies this`log
      ensures log == Written(fdOpen, old(log), Frames(ClassTransitions(k, keysym, down)))
    {
      var ok;
      match k
      case Accent(j) =>
        var row := Latin1ToDeadChars(j);
        var i := Scan(DeadChar, DEAD_ROWS, row.deadChar);
        DoAccent(DeadCharsToAltChar(i).altChar, row.baseChar, down);
      case Special(p) =>
        FramesOne(Transition(SpecialKeys(p).directKey, down));
        ok := DoKeyboardEvent(SpecialKeys(p).directKey, down);
      case Symbol(s) => DoSymbol(SymbolKeys(s), down);
      case Basic => ok := DoBasicKeyEvent(keysym, down);
    }

    method KeyEvent(down: bool, rawKeysym: int)
      modifies this`log
      ensures Snapshot() == Step(old(Snapshot()), Call.KeyEvent(down, rawKeysym))
    {
      if !mOpened { return; }
      var keysym := rawKeysym;
      var a := Scan(AliasKeysym, ALIAS_ROWS, keysym);
      if a < ALIAS_ROWS { keysym := KeysymToAscii(a).ascii; }
      Translate(keysym, down);
    }

    method InjectPosition(x: int, y: int)
      modifies this`log
      ensures log == Written(fdOpen, old(log), [Abs(ABS_X, x), Abs(ABS_Y, y)])
    {
      var ok := Inject(Abs(ABS_X, x));
      ok := Inject(Abs(ABS_Y, y));
    }

    method Move(x: int, y: int)
      modifies this`log, this`mLastX, this`mLastY
      ensures log == Written(fdOpen, old(log), Motion(old(Snapshot()), x, y))
      ensures mLastX == x && mLastY == y
    {
      var diffX, diffY := x - mLastX, y - mLastY;
      mLastX, mLastY := x, y;
      if !touch {
        var ok;
        if !useRelativeInput {
          InjectPosition(x, y);
        } else {
          ok := Inject(Rel(REL_X, diffX));
          ok := Inject(Rel(REL_Y, diffY));
        }
        ok := Inject(Syn);
      }
    }

    method Buttons(left: bool, middle: bool, right: bool, x: int, y: int)
      modifies this`log, this`mLeftClicked, this`mMiddleClicked, this`mRightClicked
      ensures log == Written(fdOpen, old(log), ButtonsOutput(old(Snapshot()), left, middle, right, x, y))
      ensures mLeftClicked == left && mMiddleClicked == middle && mRightClicked == right
    {
      ghost var l := Button(useRelativeInput, LeftCode(touch), mLeftClicked, left, true, x, y);
      ghost var r := Button(useRelativeInput, RightCode(touch), mRightClicked, right, false, x, y);
      ghost var m := Button(useRelativeInput, MiddleCode(touch), mMiddleClicked, middle, false, x, y);
      LeftButton(left, x, y);
      RightButton(right, x, y);
      MiddleButton(middle, x, y);
      WrittenTwice(fdOpen, Written(fdOpen, old(log), l), r, m);
      WrittenTwice(fdOpen, old(log), l, r + m);
    }

    /** pointerEvent after its check that the device is open. */
    method Report(mask: int, x: int, y: int)
      modifies this
      ensures unchanged(this`fdOpen, this`mOpened, this`touch, this`useRelativeInput)
      ensures log == Written(fdOpen, old(log), PointerOutput(old(Snapshot()), mask, x, y))
      ensures mLastX == x && mLastY == y
      ensures mLeftClicked == Bit(mask, 0) && mRightClicked == Bit(mask, 2) && mMiddleClicked == Bit(mask, 1)
    {
      ghost var motion := Motion(Snapshot(), x, y);
      ghost var buttons := ButtonsOutput(Snapshot(), Bit(mask, 0), Bit(mask, 1), Bit(mask, 2), x, y);
      Move(x, y);
      Buttons(Bit(mask, 0), Bit(mask, 1), Bit(mask, 2), x, y);
      WheelTicks(mask);
      WrittenTwice(fdOpen, Written(fdOpen, old(log), motion), buttons, Wheel(mask));
      WrittenTwice(fdOpen, old(log), motion, buttons + Wheel(mask));
    }

    method PointerEvent(mask: int, x: Coord, y: Coord)
      modifies this
      ensures Snapshot() == Step(old(Snapshot()), Call.PointerEvent(mask, x, y))
    {
      if !mOpened { return; }
      Report(mask, x, y);
    }

    method WheelTicks(mask: int)
      modifies this`log
      ensures log == Written(fdOpen, old(log), Wheel(mask))
    {
      var ok;
      if Bit(mask, 3) {
        ok := Inject(Rel(REL_WHEEL, 1));
        ok := Inject(Syn);
      }
      if Bit(mask, 4) {
        ok := Inject(Rel(REL_WHEEL, -1));
        ok := Inject(Syn);
      }
    }

    method LeftButton(pressed: bool, x: int, y: int)
      modifies this`log, this`mLeftClicked
      ensures log == Written(fdOpen, old(log), Button(useRelativeInput, LeftCode(touch), old(mLeftClicked), pressed, true, x, y))
      ensures mLeftClicked == pressed
    {
      var ok;
      if pressed && !mLeftClicked {
        mLeftClicked := true;
        if !useRelativeInput { InjectPosition(x, y); }
        if touch { ok := Inject(Key(BTN_TOUCH, 1)); } else { ok := Inject(Key(BTN_LEFT, 1)); }
        ok := Inject(Syn);
      } else if !pressed && mLeftClicked {
        mLeftClicked := false;
        if !useRelativeInput { InjectPosition(x, y); }
        if touch { ok := Inject(Key(BTN_TOUCH, 0)); } else { ok := Inject(Key(BTN_LEFT, 0)); }
        ok := Inject(Syn);
      } else if mLeftClicked && !useRelativeInput {
        InjectPosition(x, y);
        ok := Inject(Syn);
      }
    }

    method RightButton(pressed: bool, x: int, y: int)
      modifies this`log, this`mRightClicked
      ensures log == Written(fdOpen, old(log), Button(useRelativeInput, RightCode(touch), old(mRightClicked), pressed, false, x, y))
      ensures mRightClicked == pressed
    {
      var ok;
      if pressed && !mRightClicked {
        mRightClicked := true;
        if touch { ok := Inject(Key(KEY_BACK, 1)); } else { ok := Inject(Key(BTN_RIGHT, 1)); }
        ok := Inject(Syn);
      } else if !pressed && mRightClicked {
        mRightClicked := false;
        if touch { ok := Inject(Key(KEY_BACK, 0)); } else { ok := Inject(Key(BTN_RIGHT, 0)); }
        ok := Inject(Syn);
      } else if mRightClicked && !useRelativeInput {
        InjectPosition(x, y);
        ok := Inject(Syn);
      }
    }

    method MiddleButton(pressed: bool, x: int, y: int)
      modifies this`log, this`mMiddleClicked
      ensures log == Written(fdOpen, old(log), Button(useRelativeInput, MiddleCode(touch), old(mMiddleClicked), pressed, false, x, y))
      ensures mMiddleClicked == pressed
    {
      var ok;
      if pressed && !mMiddleClicked {
        mMiddleClicked := true;
        if touch { ok := Inject(Key(KEY_END, 1)); } else { ok := Inject(Key(BTN_MIDDLE, 1)); }
        ok := Inject(Syn);
      } else if !pressed && mMiddleClicked {
        mMiddleClicked := false;
        if touch { ok := Inject(Key(KEY_END, 0)); } else { ok := Inject(Key(BTN_MIDDLE, 0)); }
        ok := Inject(Syn);
      } else if mMiddleClicked && !useRelativeInput {
        InjectPosition(x, y);
        ok := Inject(Syn);
      }
    }

    /** The flags and the mode are overwritten before the already-open check. */
    method Start(width: int, height: int, istouch: bool, relative: bool, outcome: StartOutcome) returns (ok: bool)
      modifies this
      ensures Snapshot() == Step(old(Snapshot()), Call.Start(width, height, istouch, relative, outcome))
      ensures ok <==> !old(fdOpen) && fdOpen
    {
      mLeftClicked, mMiddleClicked, mRightClicked := false, false, false;
      mLastX, mLastY := 0, 0;
      touch, useRelativeInput := istouch, relative;
      if fdOpen { return false; }
      if outcome == OpenFails { return false; }
      fdOpen := true;
      if outcome == SetupFails {
        fdOpen := false;
        return false;
      }
      log := log + [Create(istouch, relative, width, height)];
      mOpened := true;
      return true;
    }

    method Stop()
      modifies this
      ensures Snapshot() == Step(old(Snapshot()), Call.Stop)
    {
      mOpened := false;
      if !fdOpen { return; }
      log := log + [Destroy];
      fdOpen := false;
    }

    method Reconfigure(width: int, height: int, istouch: bool, relative: bool, outcome: StartOutcome)
      modifies this
      ensures Snapshot() == Run(old(Snapshot()), [Call.Stop, Call.Start(width, height, istouch, relative, outcome)])
    {
      ghost var calls := [Call.Stop, Call.Start(width, height, istouch, relative, outcome)];
      Stop();
      ghost var stopped := Snapshot();
      var ok := Start(width, height, istouch, relative, outcome);
      assert calls[..1] == [Call.Stop];
      assert [Call.Stop][..0] == [];
      assert Run(old(Snapshot()), calls[..1]) == stopped;
    }
  }

  /** The loop that keyEvent runs over each of its tables. */
  method Scan(column: nat -> int, rows: nat, key: int) returns (i: nat)
    ensures i == Lookup(column, rows, key)
  {
    i := 0;
    while i < rows
      invariant i <= rows
      invariant forall k | 0 <= k < i :: column(k) != key
    {
      if column(i) == key { return; }
      i := i + 1;
    }
  }

  /** The nested loop over the accent and dead-key tables. */
  method ScanAccents(keysym: int) returns (j: nat)
    ensures j == AccentRowOf(keysym)
  {
    j := 0;
    while j < ACCENT_ROWS
      invariant j <= ACCENT_ROWS && AccentRowOf(keysym, j) == AccentRowOf(keysym)
    {
      var row := Latin1ToDeadChars(j);
      if keysym == row.latin1Char {
        var i := Scan(DeadChar, DEAD_ROWS, row.deadChar);
        if i < DEAD_ROWS { return; }
      }
      j := j + 1;
    }
  }

  /** The scans of keyEvent after the alias scan; the first table with a matching row decides. */
  method ScanTables(keysym: int) returns (k: KeyClass)
    ensures k == Classify(keysym)
  {
    var j := ScanAccents(keysym);
    if j < ACCENT_ROWS { return Accent(j); }
    var p := Scan(SpecialKeysym, SPECIAL_ROWS, keysym);
    if p < SPECIAL_ROWS { return Special(p); }
    var s := Scan(SymbolKeysym, SYMBOL_ROWS, keysym);
    if s < SYMBOL_ROWS { return Symbol(s); }
    return Basic;
  }

  lemma FramesFour(ts: seq<Transition>)
    requires |ts| == 4
    ensures Frames(ts) == Frame(ts[0]) + Frame(ts[1]) + Frame(ts[2]) + Frame(ts[3])
  {
    assert ts == [ts[0]] + ([ts[1]] + ([ts[2]] + [ts[3]]));
    FramesAppend([ts[0]], [ts[1]] + ([ts[2]] + [ts[3]]));
    FramesAppend([ts[1]], [ts[2]] + [ts[3]]);
    FramesAppend([ts[2]], [ts[3]]);
    FramesOne(ts[0]); FramesOne(ts[1]); FramesOne(ts[2]); FramesOne(ts[3]);
  }

  lemma FramesFive(ts: seq<Transition>)
    requires |ts| == 5
    ensures Frames(ts) == Frame(ts[0]) + Frame(ts[1]) + Frame(ts[2]) + Frame(ts[3]) + Frame(ts[4])
  {
    assert ts == ts[..4] + [ts[4]];
    FramesFour(ts[..4]);
    FramesOne(ts[4]);
    FramesAppend(ts[..4], [ts[4]]);
  }
}
