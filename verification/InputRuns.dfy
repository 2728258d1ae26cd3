/** Whole runs of the input device: the state of the object, the kernel's reading of its
    stream, and a plain recount of the calls agree after every sequence of calls. */
module InputRuns {
  import opened Keymap
  import opened InputStream
  import opened KeyTranslation
  import opened Input

  // ---- A recount of the calls, made without looking at the object or the stream ----

  /** The fields after `down` describe the current device and start over with it. */
  datatype Recount = Recount(
    open: bool, down: set<int>,
    touch: bool, relative: bool, width: int, height: int,
    mask: int, x: int, y: int, wheel: int, pointersInRange: bool)

  const NOTHING_YET := Recount(false, {}, false, false, 0, 0, 0, 0, 0, 0, true)

  function Count(r: Recount, call: Call): Recount {
    match call
    case Start(w, h, t, rel, outcome) =>
      if r.open || outcome != Created then r
      else Recount(true, r.down, t, rel, w, h, 0, 0, 0, 0, r.pointersInRange)
    case Stop => r.(open := false)
    case KeyEvent(down, keysym) =>
      r.(down := if down then r.down + {keysym} else r.down - {keysym})
    case PointerEvent(mask, x, y) =>
      if !r.open then r
      else r.(mask := mask, x := x, y := y,
              wheel := r.wheel + (if Bit(mask, 3) then 1 else 0) - (if Bit(mask, 4) then 1 else 0),
              pointersInRange := r.pointersInRange && 0 <= x <= r.width && 0 <= y <= r.height)
  }

  function CountAll(calls: seq<Call>): Recount {
    if calls == [] then NOTHING_YET else Count(CountAll(calls[..|calls| - 1]), calls[|calls| - 1])
  }

  /** Every start finds the device closed, as the stop inside reconfigure provides. */
  predicate StartsWhenClosed(calls: seq<Call>) {
    calls != [] ==>
      && StartsWhenClosed(calls[..|calls| - 1])
      && (calls[|calls| - 1].Start? ==> !CountAll(calls[..|calls| - 1]).open)
  }

  /** The object as constructed: no descriptor, every other member uninitialised. */
  function Fresh(garbage: Device): Device { garbage.(fdOpen := false, log := []) }

  function MaskCodes(touch: bool, mask: int): set<int> {
    (if Bit(mask, 0) then {LeftCode(touch)} else {}) +
    (if Bit(mask, 2) then {RightCode(touch)} else {}) +
    (if Bit(mask, 1) then {MiddleCode(touch)} else {})
  }

  /** Somebody is still holding this code: a keysym whose last event was a down, or a button. */
  ghost predicate Justified(r: Recount, code: int) {
    || (exists keysym :: keysym in r.down && code in Persistent(keysym))
    || code in MaskCodes(r.touch, r.mask)
  }

  /** What the three views have in common while a device is open. */
  ghost predicate SessionAgrees(d: Device, k: Kernel, r: Recount) {
    && k.touch == d.touch == r.touch && k.relative == d.relative == r.relative
    && k.width == r.width && k.height == r.height
    && (forall c | c in k.held :: Justified(r, c))
    && d.left == Bit(r.mask, 0) && d.right == Bit(r.mask, 2) && d.middle == Bit(r.mask, 1)
    && (LeftCode(r.touch) in k.held <==> Bit(r.mask, 0))
    && (RightCode(r.touch) in k.held <==> Bit(r.mask, 2))
    && (!r.touch ==> (BTN_MIDDLE in k.held <==> Bit(r.mask, 1)))
    && d.lastX == r.x && d.lastY == r.y && k.wheel == r.wheel
    && (!r.touch && r.relative ==> k.relX == r.x && k.relY == r.y)
    && (!r.touch && !r.relative ==> k.absX == r.x && k.absY == r.y)
    && (r.touch && !r.relative && Bit(r.mask, 0) ==> k.absX == r.x && k.absY == r.y)
  }

  /** No SYN_REPORT frame pending and every verdict of the reader still good. */
  ghost predicate StreamGood(k: Kernel) {
    !k.frameOpen && k.frameKeys == 0 && k.oneKeyPerFrame && k.registered && k.alternating
  }

  ghost predicate Agree(d: Device, k: Kernel, r: Recount) {
    && d.fdOpen == k.open == r.open && (d.fdOpen ==> d.ready)
    && StreamGood(k)
    && (r.pointersInRange ==> k.inRange)
    && (!k.open ==> k.held == {})
    && (k.open ==> SessionAgrees(d, k, r))
  }

  // ---- The kernel's reading of one PointerEvent ----

  function MovedTo(k: Kernel, x: int, y: int): Kernel {
    k.(absX := x, absY := y, inRange := k.inRange && 0 <= x <= k.width && 0 <= y <= k.height)
  }

  lemma KRunPosition(k: Kernel, x: int, y: int)
    requires k.open && StreamGood(k)
    ensures KRun(k, [Abs(ABS_X, x), Abs(ABS_Y, y)]) == MovedTo(k, x, y).(frameOpen := true)
    ensures KRun(k, [Abs(ABS_X, x), Abs(ABS_Y, y), Syn]) == MovedTo(k, x, y)
  {
    KRun2(k, Abs(ABS_X, x), Abs(ABS_Y, y));
    KRun3(k, Abs(ABS_X, x), Abs(ABS_Y, y), Syn);
  }

  /** A step of the reader that stays in the same session, between frames. */
  ghost predicate Steady(k: Kernel, k': Kernel) {
    && k'.open && StreamGood(k')
    && k'.touch == k.touch && k'.relative == k.relative && k'.width == k.width && k'.height == k.height
    && k'.relX == k.relX && k'.relY == k.relY && k'.wheel == k.wheel
  }

  /** The absolute position afterwards is the old one or (x, y). */
  ghost predicate MayMoveTo(k: Kernel, k': Kernel, x: int, y: int) {
    && ((k'.absX == k.absX && k'.absY == k.absY) || (k'.absX == x && k'.absY == y))
    && (k.inRange && 0 <= x <= k.width && 0 <= y <= k.height ==> k'.inRange)
  }

  /** What one button report does to the reader. */
  ghost predicate ButtonDone(k: Kernel, k': Kernel, relative: bool, code: int, was: bool, now: bool, report: bool, x: int, y: int) {
    && Steady(k, k') && MayMoveTo(k, k', x, y)
    && k'.held == (if now == was then k.held else if now then k.held + {code} else k.held - {code})
    && (report && now && !relative ==> k'.absX == x && k'.absY == y)
  }

  ghost predicate ButtonReady(k: Kernel, code: int, was: bool) {
    k.open && StreamGood(k) && KeyRegistered(k.touch, code) && (code in PointerButtons(k.touch) ==> (was <==> code in k.held))
  }

  lemma KRunPress(k: Kernel, code: int, now: bool)
    requires k.open && k.frameKeys == 0 && k.oneKeyPerFrame && k.registered && k.alternating
    requires KeyRegistered(k.touch, code)
    requires code in PointerButtons(k.touch) ==> (now <==> code !in k.held)
    ensures KRun(k, [Key(code, if now then 1 else 0), Syn])
         == k.(held := if now then k.held + {code} else k.held - {code}, frameOpen := false)
  {
    KRun2(k, Key(code, if now then 1 else 0), Syn);
  }

  lemma KRunButton(k: Kernel, relative: bool, code: int, was: bool, now: bool, report: bool, x: int, y: int)
    requires ButtonReady(k, code, was)
    ensures ButtonDone(k, KRun(k, Button(relative, code, was, now, report, x, y)), relative, code, was, now, report, x, y)
  {
    KRunPosition(k, x, y);
    if now != was {
      var position := Position(relative || !report, x, y);
      KRunAppend(k, position, [Key(code, if now then 1 else 0), Syn]);
      KRunPress(KRun(k, position), code, now);
    }
  }

  lemma KRunWheel(k: Kernel, mask: int)
    requires k.open && StreamGood(k)
    ensures KRun(k, Wheel(mask))
         == k.(wheel := k.wheel + (if Bit(mask, 3) then 1 else 0) - (if Bit(mask, 4) then 1 else 0))
  {
    var up := if Bit(mask, 3) then [Rel(REL_WHEEL, 1), Syn] else [];
    var down := if Bit(mask, 4) then [Rel(REL_WHEEL, -1), Syn] else [];
    KRunAppend(k, up, down);
    KRun2(k, Rel(REL_WHEEL, 1), Syn);
    KRun2(KRun(k, up), Rel(REL_WHEEL, -1), Syn);
  }

  ghost predicate FlagsMatch(k: Kernel, d: Device) {
    && k.touch == d.touch
    && (d.left <==> LeftCode(d.touch) in k.held)
    && (d.right <==> RightCode(d.touch) in k.held)
    && (!d.touch ==> (d.middle <==> BTN_MIDDLE in k.held))
  }

  function PointerCodes(touch: bool): set<int> { {LeftCode(touch), RightCode(touch), MiddleCode(touch)} }

  /** Tracked flags that match the held codes still match after the three buttons have
      been treated, and every other code is left alone. */
  ghost predicate ButtonsDone(k: Kernel, k': Kernel, d: Device, left: bool, middle: bool, right: bool, x: int, y: int) {
    && Steady(k, k') && MayMoveTo(k, k', x, y)
    && FlagsMatch(k', d.(left := left, middle := middle, right := right))
    && (MiddleCode(d.touch) in k'.held <==> if middle == d.middle then MiddleCode(d.touch) in k.held else middle)
    && (forall c | c !in PointerCodes(d.touch) :: c in k'.held <==> c in k.held)
    && (left && !d.relative ==> k'.absX == x && k'.absY == y)
  }

  lemma ThreeButtons(k: Kernel, k1: Kernel, k2: Kernel, k3: Kernel,
                     d: Device, left: bool, middle: bool, right: bool, x: int, y: int)
    requires FlagsMatch(k, d)
    requires ButtonDone(k, k1, d.relative, LeftCode(d.touch), d.left, left, true, x, y)
    requires ButtonDone(k1, k2, d.relative, RightCode(d.touch), d.right, right, false, x, y)
    requires ButtonDone(k2, k3, d.relative, MiddleCode(d.touch), d.middle, middle, false, x, y)
    ensures ButtonsDone(k, k3, d, left, middle, right, x, y)
  {}

  lemma KRunAppend3(k: Kernel, a: seq<Entry>, b: seq<Entry>, c: seq<Entry>)
    ensures KRun(k, a + (b + c)) == KRun(KRun(KRun(k, a), b), c)
  {
    KRunAppend(k, a, b + c);
    KRunAppend(KRun(k, a), b, c);
  }

  /** `es` is a report of one button, whatever it consists of. */
  ghost predicate Reports(es: seq<Entry>, relative: bool, code: int, was: bool, now: bool, report: bool, x: int, y: int) {
    forall k :: ButtonReady(k, code, was) ==> ButtonDone(k, KRun(k, es), relative, code, was, now, report, x, y)
  }

  lemma ButtonReports(relative: bool, code: int, was: bool, now: bool, report: bool, x: int, y: int)
    ensures Reports(Button(relative, code, was, now, report, x, y), relative, code, was, now, report, x, y)
  {
    forall k | ButtonReady(k, code, was)
      ensures ButtonDone(k, KRun(k, Button(relative, code, was, now, report, x, y)), relative, code, was, now, report, x, y)
    {
      KRunButton(k, relative, code, was, now, report, x, y);
    }
  }

  lemma KRunReports(k: Kernel, l: seq<Entry>, r: seq<Entry>, m: seq<Entry>,
                    d: Device, left: bool, middle: bool, right: bool, x: int, y: int)
    requires k.open && StreamGood(k) && FlagsMatch(k, d)
    requires Reports(l, d.relative, LeftCode(d.touch), d.left, left, true, x, y)
    requires Reports(r, d.relative, RightCode(d.touch), d.right, right, false, x, y)
    requires Reports(m, d.relative, MiddleCode(d.touch), d.middle, middle, false, x, y)
    ensures ButtonsDone(k, KRun(k, l + (r + m)), d, left, middle, right, x, y)
  {
    var kl := KRun(k, l);
    var kr := KRun(kl, r);
    assert ButtonReady(k, LeftCode(d.touch), d.left);
    assert ButtonReady(kl, RightCode(d.touch), d.right);
    assert ButtonReady(kr, MiddleCode(d.touch), d.middle);
    ThreeButtons(k, kl, kr, KRun(kr, m), d, left, middle, right, x, y);
    KRunAppend3(k, l, r, m);
  }

  lemma KRunButtons(k: Kernel, d: Device, left: bool, middle: bool, right: bool, x: int, y: int)
    requires k.open && StreamGood(k) && FlagsMatch(k, d)
    ensures ButtonsDone(k, KRun(k, ButtonsOutput(d, left, middle, right, x, y)), d, left, middle, right, x, y)
  {
    ButtonReports(d.relative, LeftCode(d.touch), d.left, left, true, x, y);
    ButtonReports(d.relative, RightCode(d.touch), d.right, right, false, x, y);
    ButtonReports(d.relative, MiddleCode(d.touch), d.middle, middle, false, x, y);
    KRunReports(k, Button(d.relative, LeftCode(d.touch), d.left, left, true, x, y),
                Button(d.relative, RightCode(d.touch), d.right, right, false, x, y),
                Button(d.relative, MiddleCode(d.touch), d.middle, middle, false, x, y),
                d, left, middle, right, x, y);
  }

  // ---- Each call keeps the three views in agreement ----

  lemma StartKeepsAgreement(d: Device, k: Kernel, r: Recount, call: Call)
    requires Agree(d, k, r) && call.Start? && !r.open && k == KRun(NO_DEVICE, d.log)
    ensures var d' := Step(d, call); Agree(d', KRun(NO_DEVICE, d'.log), Count(r, call))
  {
    if call.outcome == Created {
      var e := Create(call.touch, call.relative, call.width, call.height);
      KRunAppend(NO_DEVICE, d.log, [e]);
      KRun1(k, e);
    }
  }

  lemma StopKeepsAgreement(d: Device, k: Kernel, r: Recount)
    requires Agree(d, k, r) && k == KRun(NO_DEVICE, d.log)
    ensures var d' := Step(d, Call.Stop); Agree(d', KRun(NO_DEVICE, d'.log), Count(r, Call.Stop))
  {
    KRunAppend(NO_DEVICE, d.log, [Destroy]);
    KRun1(k, Destroy);
  }

  lemma KeyEventKeepsAgreement(d: Device, k: Kernel, r: Recount, down: bool, keysym: int)
    requires Agree(d, k, r) && k == KRun(NO_DEVICE, d.log)
    ensures var d' := Step(d, Call.KeyEvent(down, keysym));
            Agree(d', KRun(NO_DEVICE, d'.log), Count(r, Call.KeyEvent(down, keysym)))
  {
    if k.open {
      var ts := Transitions(down, keysym);
      var r' := Count(r, Call.KeyEvent(down, keysym));
      KRunAppend(NO_DEVICE, d.log, Frames(ts));
      TransitionsAreKeyboard(down, keysym);
      KRunFrames(k, ts);
      HeldKeepsOthers(k.held, ts, LeftCode(r.touch));
      HeldKeepsOthers(k.held, ts, RightCode(r.touch));
      if !r.touch { HeldKeepsOthers(k.held, ts, BTN_MIDDLE); }
      if down { DownHoldsOwnCodes(k.held, keysym); } else { UpReleasesOwnCodes(k.held, keysym); }
      forall c | c in HeldAfter(k.held, ts)
        ensures Justified(r', c)
      {
        KeyJustifies(r, r', down, keysym, c, c in k.held);
      }
    }
  }

  lemma KeyJustifies(r: Recount, r': Recount, down: bool, keysym: int, c: int, wasHeld: bool)
    requires r' == Count(r, Call.KeyEvent(down, keysym))
    requires wasHeld ==> Justified(r, c)
    requires down ==> wasHeld || c in Persistent(keysym)
    requires !down ==> wasHeld && c !in Persistent(keysym)
    ensures Justified(r', c)
  {
    if down && c in Persistent(keysym) {
      assert keysym in r'.down;
    } else if c !in MaskCodes(r.touch, r.mask) {
      var s :| s in r.down && c in Persistent(s);
      assert s in r'.down;
    }
  }

  /** A code that no transition names stays as it was. */
  lemma {:induction false} HeldKeepsOthers(held: set<int>, ts: seq<Transition>, code: int)
    requires forall t | t in ts :: t.code != code
    ensures code in HeldAfter(held, ts) <==> code in held
    decreases ts
  {
    if ts != [] {
      assert ts[0] in ts;
      HeldKeepsOthers(if ts[0].down then held + {ts[0].code} else held - {ts[0].code}, ts[1..], code);
    }
  }

  /** What motion leaves: the position of the mode, nothing else. */
  ghost predicate MotionDone(k: Kernel, k': Kernel, d: Device, x: int, y: int) {
    k' == if d.touch then k
          else if d.relative then k.(relX := k.relX + (x - d.lastX), relY := k.relY + (y - d.lastY))
          else MovedTo(k, x, y)
  }

  lemma KRunRelative(k: Kernel, dx: int, dy: int)
    requires k.open && StreamGood(k)
    ensures KRun(k, [Rel(REL_X, dx), Rel(REL_Y, dy), Syn]) == k.(relX := k.relX + dx, relY := k.relY + dy)
  {
    KRun3(k, Rel(REL_X, dx), Rel(REL_Y, dy), Syn);
  }

  lemma KRunMotion(k: Kernel, d: Device, x: int, y: int)
    requires k.open && StreamGood(k)
    ensures MotionDone(k, KRun(k, Motion(d, x, y)), d, x, y)
  {
    if !d.touch {
      if d.relative { KRunRelative(k, x - d.lastX, y - d.lastY); } else { KRunPosition(k, x, y); }
    }
  }

  function WheelTicks(mask: int): int { (if Bit(mask, 3) then 1 else 0) - (if Bit(mask, 4) then 1 else 0) }

  /** One PointerEvent as the reader sees it: move, buttons, wheel. */
  lemma KRunPointer(d: Device, k: Kernel, mask: int, x: int, y: int) returns (moved: Kernel, pressed: Kernel)
    requires k.open && StreamGood(k) && FlagsMatch(k, d)
    ensures MotionDone(k, moved, d, x, y)
    ensures ButtonsDone(moved, pressed, d, Bit(mask, 0), Bit(mask, 1), Bit(mask, 2), x, y)
    ensures KRun(k, PointerOutput(d, mask, x, y)) == pressed.(wheel := pressed.wheel + WheelTicks(mask))
  {
    var buttons := ButtonsOutput(d, Bit(mask, 0), Bit(mask, 1), Bit(mask, 2), x, y);
    moved := KRun(k, Motion(d, x, y));
    pressed := KRun(moved, buttons);
    KRunAppend3(k, Motion(d, x, y), buttons, Wheel(mask));
    KRunMotion(k, d, x, y);
    MotionKeepsFlags(k, moved, d, x, y);
    KRunButtons(moved, d, Bit(mask, 0), Bit(mask, 1), Bit(mask, 2), x, y);
    KRunWheel(pressed, mask);
  }

  lemma MotionKeepsFlags(k: Kernel, moved: Kernel, d: Device, x: int, y: int)
    requires k.open && StreamGood(k) && FlagsMatch(k, d) && MotionDone(k, moved, d, x, y)
    ensures moved.open && StreamGood(moved) && FlagsMatch(moved, d)
  {}

  lemma PointerKeepsSession(d: Device, k: Kernel, moved: Kernel, pressed: Kernel, r: Recount, mask: int, x: Coord, y: Coord)
    requires Agree(d, k, r) && k.open && MotionDone(k, moved, d, x, y)
    requires ButtonsDone(moved, pressed, d, Bit(mask, 0), Bit(mask, 1), Bit(mask, 2), x, y)
    ensures Agree(PointerStep(d, mask, x, y), pressed.(wheel := pressed.wheel + WheelTicks(mask)), Count(r, Call.PointerEvent(mask, x, y)))
  {
    var r' := Count(r, Call.PointerEvent(mask, x, y));
    forall c | c in pressed.held
      ensures Justified(r', c)
    {
      PointerJustifies(k, d, r, r', pressed, c);
    }
  }

  lemma PointerEventKeepsAgreement(d: Device, k: Kernel, r: Recount, mask: int, x: Coord, y: Coord)
    requires Agree(d, k, r) && k == KRun(NO_DEVICE, d.log)
    ensures var d' := Step(d, Call.PointerEvent(mask, x, y));
            Agree(d', KRun(NO_DEVICE, d'.log), Count(r, Call.PointerEvent(mask, x, y)))
  {
    if k.open {
      KRunAppend(NO_DEVICE, d.log, PointerOutput(d, mask, x, y));
      var moved, pressed := KRunPointer(d, k, mask, x, y);
      PointerKeepsSession(d, k, moved, pressed, r, mask, x, y);
    }
  }

  lemma PointerJustifies(k: Kernel, d: Device, r: Recount, r': Recount, pressed: Kernel, c: int)
    requires r'.down == r.down && r'.touch == r.touch == d.touch && d.middle == Bit(r.mask, 1)
    requires c in pressed.held && (c in k.held ==> Justified(r, c))
    requires LeftCode(d.touch) in pressed.held ==> Bit(r'.mask, 0)
    requires RightCode(d.touch) in pressed.held ==> Bit(r'.mask, 2)
    requires MiddleCode(d.touch) in pressed.held ==> Bit(r'.mask, 1) || (MiddleCode(d.touch) in k.held && !d.middle)
    requires c !in PointerCodes(d.touch) ==> c in k.held
    ensures Justified(r', c)
  {
    if c !in MaskCodes(r'.touch, r'.mask) {
      assert c in k.held && c !in MaskCodes(r.touch, r.mask);
      var s :| s in r.down && c in Persistent(s);
      assert s in r'.down && c in Persistent(s);
    }
  }

  /** The agreement theorem: over every sequence of key, pointer, stop and start calls, from
      any uninitialised object, as long as each start finds the device closed. */
  lemma {:induction false} RunsAgree(garbage: Device, calls: seq<Call>)
    requires StartsWhenClosed(calls)
    ensures var d := Run(Fresh(garbage), calls); Agree(d, KRun(NO_DEVICE, d.log), CountAll(calls))
  {
    if calls != [] {
      var before, call := calls[..|calls| - 1], calls[|calls| - 1];
      RunsAgree(garbage, before);
      var d := Run(Fresh(garbage), before);
      var k, r := KRun(NO_DEVICE, d.log), CountAll(before);
      match call
      case Start(_, _, _, _, _) => StartKeepsAgreement(d, k, r, call);
      case Stop => StopKeepsAgreement(d, k, r);
      case KeyEvent(down, keysym) => KeyEventKeepsAgreement(d, k, r, down, keysym);
      case PointerEvent(mask, x, y) => PointerEventKeepsAgreement(d, k, r, mask, x, y);
    }
  }

  // ---- What the agreement means ----

  ghost function KernelAfter(garbage: Device, calls: seq<Call>): Kernel {
    KRun(NO_DEVICE, Run(Fresh(garbage), calls).log)
  }

  predicate NoButtons(mask: int) { !Bit(mask, 0) && !Bit(mask, 1) && !Bit(mask, 2) }

  /** No stuck keys: every code held on the device belongs to a keysym whose last event was a
      down or to a button that is down; with all of them up, in whatever order they were
      released, nothing is held; and a closed device holds nothing. */
  lemma NoStuckKeys(garbage: Device, calls: seq<Call>)
    requires StartsWhenClosed(calls)
    ensures var k, r := KernelAfter(garbage, calls), CountAll(calls);
      && (forall c | c in k.held :: Justified(r, c))
      && (r.down == {} && NoButtons(r.mask) ==> k.held == {})
      && (!r.open ==> k.held == {})
  {
    RunsAgree(garbage, calls);
    var k, r := KernelAfter(garbage, calls), CountAll(calls);
    if r.down == {} && NoButtons(r.mask) {
      assert MaskCodes(r.touch, r.mask) == {};
      assert forall c | c in k.held :: !Justified(r, c);
      assert forall c :: c !in k.held;
    }
  }

  // ---- Exactly what is held ----

  /** What one call does to the held codes: a down stroke adds its own codes and takes its borrowed
      ones away, an up stroke takes its own away, and a pointer event adds and takes away the codes
      of the buttons that changed. */
  function HeldNext(r: Recount, call: Call, held: set<int>): set<int> {
    match call
    case Start(_, _, _, _, _) => held
    case Stop => {}
    case KeyEvent(down, keysym) =>
      if r.open then HeldByStroke(held, Persistent(keysym), Borrowed(keysym), down) else held
    case PointerEvent(mask, _, _) =>
      if r.open then HeldByButtons(held, MaskCodes(r.touch, r.mask), MaskCodes(r.touch, mask)) else held
  }

  /** The held codes, worked out from the calls. */
  function HeldCodes(calls: seq<Call>): set<int> {
    if calls == [] then {}
    else HeldNext(CountAll(calls[..|calls| - 1]), calls[|calls| - 1], HeldCodes(calls[..|calls| - 1]))
  }

  function HeldByButtons(held: set<int>, was: set<int>, now: set<int>): set<int> {
    held - (was - now) + (now - was)
  }

  lemma PointerHolds(d: Device, k: Kernel, r: Recount, mask: int, x: Coord, y: Coord)
    requires Agree(d, k, r) && k.open
    ensures KRun(k, PointerOutput(d, mask, x, y)).held
         == HeldByButtons(k.held, MaskCodes(r.touch, r.mask), MaskCodes(r.touch, mask))
  {
    var moved, pressed := KRunPointer(d, k, mask, x, y);
    forall c
      ensures c in pressed.held <==> c in HeldByButtons(k.held, MaskCodes(r.touch, r.mask), MaskCodes(r.touch, mask))
    {
      ButtonHolds(k, moved, pressed, d, r, mask, x, y, c);
    }
  }

  lemma ButtonHolds(k: Kernel, moved: Kernel, pressed: Kernel, d: Device, r: Recount, mask: int, x: int, y: int, c: int)
    requires Agree(d, k, r) && k.open && moved.held == k.held
    requires ButtonsDone(moved, pressed, d, Bit(mask, 0), Bit(mask, 1), Bit(mask, 2), x, y)
    ensures c in pressed.held <==> c in HeldByButtons(k.held, MaskCodes(r.touch, r.mask), MaskCodes(r.touch, mask))
  {}

  /** Both directions: the device holds exactly the codes that the calls say. */
  lemma {:induction false} HeldExactly(garbage: Device, calls: seq<Call>)
    requires StartsWhenClosed(calls)
    ensures KernelAfter(garbage, calls).held == HeldCodes(calls)
  {
    if calls != [] {
      var before, call := calls[..|calls| - 1], calls[|calls| - 1];
      HeldExactly(garbage, before);
      RunsAgree(garbage, before);
      RunsAgree(garbage, calls);
      HeldStep(Run(Fresh(garbage), before), CountAll(before), call);
    }
  }

  lemma HeldStep(d: Device, r: Recount, call: Call)
    requires Agree(d, KRun(NO_DEVICE, d.log), r) && (call.Start? ==> !r.open)
    ensures KRun(NO_DEVICE, Step(d, call).log).held == HeldNext(r, call, KRun(NO_DEVICE, d.log).held)
  {
    var k := KRun(NO_DEVICE, d.log);
    match call
    case Start(w, h, t, rel, _) => AppendOne(d.log, Create(t, rel, w, h));
    case Stop => AppendOne(d.log, Destroy);
    case KeyEvent(down, keysym) =>
      if r.open {
        KRunAppend(NO_DEVICE, d.log, Frames(Transitions(down, keysym)));
        TransitionsAreKeyboard(down, keysym);
        KRunFrames(k, Transitions(down, keysym));
        DownHoldsOwnCodes(k.held, keysym);
        UpReleasesOwnCodes(k.held, keysym);
      }
    case PointerEvent(mask, x, y) =>
      if r.open {
        KRunAppend(NO_DEVICE, d.log, PointerOutput(d, mask, x, y));
        PointerHolds(d, k, r, mask, x, y);
      }
  }

  lemma AppendOne(log: seq<Entry>, e: Entry)
    ensures KRun(NO_DEVICE, log + [e]) == KStep(KRun(NO_DEVICE, log), e)
  {
    KRunAppend(NO_DEVICE, log, [e]);
    KRun1(KRun(NO_DEVICE, log), e);
  }

  // ---- When every key that is down is held ----

  /** Every own code of every keysym whose last event was a down is held. */
  ghost predicate DownIsHeld(down: set<int>, held: set<int>) {
    forall keysym | keysym in down :: Persistent(keysym) <= held
  }

  /** The call takes no code away from a keysym that stays down. */
  ghost predicate Harmless(r: Recount, call: Call) {
    match call
    case Start(_, _, _, _, _) => true
    case Stop => forall s | s in r.down :: Persistent(s) == {}
    case KeyEvent(true, keysym) =>
      if r.open then forall s | s in r.down :: Persistent(s) * Borrowed(keysym) <= Persistent(keysym)
      else Persistent(keysym) == {}
    case KeyEvent(false, keysym) =>
      r.open ==> forall s | s in r.down && s != keysym :: Persistent(s) !! Persistent(keysym)
    case PointerEvent(mask, _, _) =>
      r.open ==> forall s | s in r.down :: Persistent(s) !! (MaskCodes(r.touch, r.mask) - MaskCodes(r.touch, mask))
  }

  ghost predicate AlwaysHarmless(calls: seq<Call>) {
    calls != [] ==> AlwaysHarmless(calls[..|calls| - 1]) && Harmless(CountAll(calls[..|calls| - 1]), calls[|calls| - 1])
  }

  ghost predicate AlwaysHeld(garbage: Device, calls: seq<Call>) {
    && DownIsHeld(CountAll(calls).down, KernelAfter(garbage, calls).held)
    && (calls != [] ==> AlwaysHeld(garbage, calls[..|calls| - 1]))
  }

  /** The converse of NoStuckKeys is false, and this is exactly when it holds: over a run every
      key that is down stays held after each call if and only if no call of the run borrows,
      releases or closes away a code that another keysym owns. */
  lemma {:induction false} KeysStayHeld(garbage: Device, calls: seq<Call>)
    requires StartsWhenClosed(calls)
    ensures AlwaysHeld(garbage, calls) <==> AlwaysHarmless(calls)
  {
    HeldExactly(garbage, calls);
    if calls != [] {
      var before, call := calls[..|calls| - 1], calls[|calls| - 1];
      KeysStayHeld(garbage, before);
      HeldExactly(garbage, before);
      RunsAgree(garbage, before);
      if AlwaysHeld(garbage, before) {
        HarmlessStep(CountAll(before), call, HeldCodes(before));
      }
    }
  }

  lemma HarmlessStep(r: Recount, call: Call, held: set<int>)
    requires DownIsHeld(r.down, held) && (!r.open ==> held == {})
    ensures DownIsHeld(Count(r, call).down, HeldNext(r, call, held)) <==> Harmless(r, call)
  {
    match call
    case Start(_, _, _, _, _) =>
    case Stop =>
    case KeyEvent(down, keysym) =>
      if down { DownIsHarmless(r, keysym, held); } else { UpIsHarmless(r, keysym, held); }
    case PointerEvent(mask, _, _) =>
      ButtonsAreHarmless(r.down, held, MaskCodes(r.touch, r.mask), MaskCodes(r.touch, mask));
  }

  lemma DownIsHarmless(r: Recount, keysym: int, held: set<int>)
    requires DownIsHeld(r.down, held) && (!r.open ==> held == {})
    ensures DownIsHeld(r.down + {keysym}, if r.open then HeldByStroke(held, Persistent(keysym), Borrowed(keysym), true) else held)
       <==> Harmless(r, Call.KeyEvent(true, keysym))
  {
    var after := HeldByStroke(held, Persistent(keysym), Borrowed(keysym), true);
    if r.open {
      forall s | s in r.down
        ensures Persistent(s) <= after <==> Persistent(s) * Borrowed(keysym) <= Persistent(keysym)
      {
        KeptByStroke(Persistent(s), held, Persistent(keysym), Borrowed(keysym));
      }
    }
  }

  lemma KeptByStroke(codes: set<int>, held: set<int>, own: set<int>, borrowed: set<int>)
    requires codes <= held
    ensures codes <= HeldByStroke(held, own, borrowed, true) <==> codes * borrowed <= own
    ensures codes <= HeldByStroke(held, own, borrowed, false) <==> codes !! own
  {}

  lemma UpIsHarmless(r: Recount, keysym: int, held: set<int>)
    requires DownIsHeld(r.down, held) && (!r.open ==> held == {})
    ensures DownIsHeld(r.down - {keysym}, if r.open then HeldByStroke(held, Persistent(keysym), Borrowed(keysym), false) else held)
       <==> Harmless(r, Call.KeyEvent(false, keysym))
  {
    forall s | s in r.down
      ensures Persistent(s) <= HeldByStroke(held, Persistent(keysym), Borrowed(keysym), false) <==> Persistent(s) !! Persistent(keysym)
    {
      KeptByStroke(Persistent(s), held, Persistent(keysym), Borrowed(keysym));
    }
  }

  lemma ButtonsAreHarmless(down: set<int>, held: set<int>, was: set<int>, now: set<int>)
    requires DownIsHeld(down, held)
    ensures DownIsHeld(down, HeldByButtons(held, was, now)) <==> forall s | s in down :: Persistent(s) !! (was - now)
  {
    forall s | s in down
      ensures Persistent(s) <= HeldByButtons(held, was, now) <==> Persistent(s) !! (was - now)
    {
      KeptByButtons(Persistent(s), held, was, now);
    }
  }

  lemma KeptByButtons(codes: set<int>, held: set<int>, was: set<int>, now: set<int>)
    requires codes <= held
    ensures codes <= HeldByButtons(held, was, now) <==> codes !! (was - now)
  {}

  const XK_EXCLAM := 0x21
  const XK_END := 0xff57
  const XK_SHIFT_L := 0xffe1

  lemma ShiftAndEndRows(i: nat)
    requires i < SPECIAL_ROWS
    ensures SpecialKeys(i).keysym == XK_SHIFT_L ==> SpecialKeys(i).directKey == KEY_LEFTSHIFT
    ensures SpecialKeys(i).keysym == XK_END ==> SpecialKeys(i).directKey == KEY_END
  {}

  lemma ShiftOwnsLeftShift()
    ensures Persistent(XK_SHIFT_L) == {KEY_LEFTSHIFT}
  {
    assert SpecialKeysym(71) == XK_SHIFT_L;
    ShiftAndEndRows(SpecialRowOf(XK_SHIFT_L));
    SpecialKeyOwns(XK_SHIFT_L, SpecialRowOf(XK_SHIFT_L));
  }

  lemma EndOwnsEnd()
    ensures Persistent(XK_END) == {KEY_END} && Borrowed(XK_END) == {}
  {
    assert SpecialKeysym(13) == XK_END;
    ShiftAndEndRows(SpecialRowOf(XK_END));
    SpecialKeyOwns(XK_END, SpecialRowOf(XK_END));
  }

  lemma ExclamationBorrowsShift()
    ensures KEY_LEFTSHIFT !in Persistent(XK_EXCLAM) && KEY_LEFTSHIFT in Borrowed(XK_EXCLAM)
  {
    assert SymbolKeysym(1) == XK_EXCLAM;
    SymbolRowsAreKeyboard(SymbolRowOf(XK_EXCLAM));
    SymbolKeyOwns(XK_EXCLAM, SymbolRowOf(XK_EXCLAM));
  }

  lemma Appended(calls: seq<Call>, call: Call)
    requires StartsWhenClosed(calls) && (call.Start? ==> !CountAll(calls).open)
    ensures StartsWhenClosed(calls + [call])
    ensures CountAll(calls + [call]) == Count(CountAll(calls), call)
    ensures HeldCodes(calls + [call]) == HeldNext(CountAll(calls), call, HeldCodes(calls))
  {
    assert (calls + [call])[..|calls|] == calls;
  }

  /** A device that has just been started. */
  function Started(touch: bool): seq<Call> { [Call.Stop] + [Call.Start(1080, 1920, touch, false, Created)] }

  lemma StartedIsOpen(touch: bool)
    ensures var r := CountAll(Started(touch));
      StartsWhenClosed(Started(touch)) && r.open && r.touch == touch && r.mask == 0 && r.down == {}
    ensures HeldCodes(Started(touch)) == {}
  {
    Appended([], Call.Stop);
    assert [] + [Call.Stop] == [Call.Stop];
    Appended([Call.Stop], Call.Start(1080, 1920, touch, false, Created));
  }

  /** Such a run: the left shift key goes down, then an exclamation mark. The stroke presses and
      releases the shift key itself, so it is up although its keysym is down. */
  lemma BorrowedShiftIsLost(garbage: Device)
    ensures var calls := Started(false) + [Call.KeyEvent(true, XK_SHIFT_L)] + [Call.KeyEvent(true, XK_EXCLAM)];
      && StartsWhenClosed(calls)
      && XK_SHIFT_L in CountAll(calls).down && KEY_LEFTSHIFT in Persistent(XK_SHIFT_L)
      && KEY_LEFTSHIFT !in KernelAfter(garbage, calls).held
  {
    var shifted := Started(false) + [Call.KeyEvent(true, XK_SHIFT_L)];
    ShiftOwnsLeftShift();
    ExclamationBorrowsShift();
    StartedIsOpen(false);
    Appended(Started(false), Call.KeyEvent(true, XK_SHIFT_L));
    Appended(shifted, Call.KeyEvent(true, XK_EXCLAM));
    HeldExactly(garbage, shifted + [Call.KeyEvent(true, XK_EXCLAM)]);
  }

  /** Whether the last call that moved KEY_END left it as the middle button is: a start releases
      both, a pointer event that changes the button moves the key with it, and a key event of a
      keysym of that key agrees if it is a down while the button is down, or an up while it is up. */
  ghost predicate EndKeyAgrees(calls: seq<Call>) {
    calls != [] ==>
      var r := CountAll(calls[..|calls| - 1]);
      match calls[|calls| - 1]
      case Start(_, _, _, _, _) => true
      case Stop => true
      case KeyEvent(down, keysym) =>
        if KEY_END in Persistent(keysym) then down <==> Bit(r.mask, 1) else EndKeyAgrees(calls[..|calls| - 1])
      case PointerEvent(mask, _, _) => Bit(mask, 1) != Bit(r.mask, 1) || EndKeyAgrees(calls[..|calls| - 1])
  }

  /** In touch mode, exactly when the middle button's KEY_END follows the mask. */
  lemma {:induction false} EndFollowsMiddle(garbage: Device, calls: seq<Call>)
    requires StartsWhenClosed(calls) && CountAll(calls).open && CountAll(calls).touch
    ensures (KEY_END in KernelAfter(garbage, calls).held <==> Bit(CountAll(calls).mask, 1)) <==> EndKeyAgrees(calls)
  {
    var before, call := calls[..|calls| - 1], calls[|calls| - 1];
    HeldExactly(garbage, calls);
    HeldExactly(garbage, before);
    match call
    case Start(_, _, _, _, _) => RunsAgree(garbage, before);
    case Stop =>
    case KeyEvent(_, keysym) =>
      EndFollowsMiddle(garbage, before);
      EndIsNotBorrowed(keysym);
    case PointerEvent(_, _, _) => EndFollowsMiddle(garbage, before);
  }

  /** No keysym that owns KEY_END has gone down or up since the device was last started. */
  ghost predicate EndKeyUntouched(calls: seq<Call>) {
    calls != [] ==>
      var call := calls[|calls| - 1];
      || call.Start? || call.Stop?
      || (EndKeyUntouched(calls[..|calls| - 1]) && (call.KeyEvent? ==> KEY_END !in Persistent(call.keysym)))
  }

  /** In particular it does as long as the key is left alone. */
  lemma {:induction false} UntouchedAgrees(calls: seq<Call>)
    requires EndKeyUntouched(calls)
    ensures EndKeyAgrees(calls)
  {
    if calls != [] && !calls[|calls| - 1].Start? && !calls[|calls| - 1].Stop? {
      UntouchedAgrees(calls[..|calls| - 1]);
    }
  }

  /** After each call that leaves a touch device open, KEY_END is held exactly if the middle button
      is down. */
  ghost predicate AlwaysFollows(garbage: Device, calls: seq<Call>) {
    var r := CountAll(calls);
    && (r.open && r.touch ==> (KEY_END in KernelAfter(garbage, calls).held <==> Bit(r.mask, 1)))
    && (calls != [] ==> AlwaysFollows(garbage, calls[..|calls| - 1]))
  }

  /** The key events of a run: each that finds a touch device open and moves KEY_END agrees. */
  ghost predicate EndKeysAgree(calls: seq<Call>) {
    calls != [] ==>
      var r, call := CountAll(calls[..|calls| - 1]), calls[|calls| - 1];
      && EndKeysAgree(calls[..|calls| - 1])
      && (call.KeyEvent? && r.open && r.touch && KEY_END in Persistent(call.keysym) ==> (call.down <==> Bit(r.mask, 1)))
  }

  /** So over a run it follows the mask after every call if and only if every key event of KEY_END
      repeats what the middle button does. */
  lemma {:induction false} EndAlwaysFollows(garbage: Device, calls: seq<Call>)
    requires StartsWhenClosed(calls)
    ensures AlwaysFollows(garbage, calls) <==> EndKeysAgree(calls)
  {
    var r := CountAll(calls);
    if calls != [] {
      EndAlwaysFollows(garbage, calls[..|calls| - 1]);
      if r.open && r.touch {
        EndFollowsMiddle(garbage, calls);
        if !calls[|calls| - 1].Start? { EndFollowsMiddle(garbage, calls[..|calls| - 1]); }
      }
    }
  }

  /** Buttons depend on the last mask alone, presses and releases of each alternate, and the
      flags the object tracks say the same. In touch mode the middle button is KEY_END, which the
      keyboard shares: it belongs to them exactly if the keyboard left it as the button is. */
  lemma ButtonsAreHistoryFree(garbage: Device, calls: seq<Call>)
    requires StartsWhenClosed(calls) && CountAll(calls).open
    ensures var d, k, r := Run(Fresh(garbage), calls), KernelAfter(garbage, calls), CountAll(calls);
      && k.alternating
      && d.left == Bit(r.mask, 0) && d.right == Bit(r.mask, 2) && d.middle == Bit(r.mask, 1)
      && k.held * PointerButtons(r.touch) == MaskCodes(r.touch, r.mask) * PointerButtons(r.touch)
      && (k.held * PointerCodes(r.touch) == MaskCodes(r.touch, r.mask) <==> !r.touch || EndKeyAgrees(calls))
  {
    RunsAgree(garbage, calls);
    var k, r := KernelAfter(garbage, calls), CountAll(calls);
    if r.touch { EndFollowsMiddle(garbage, calls); }
    ButtonSets(k.held, r.touch, r.mask);
  }

  lemma ButtonSets(held: set<int>, touch: bool, mask: int)
    requires LeftCode(touch) in held <==> Bit(mask, 0)
    requires RightCode(touch) in held <==> Bit(mask, 2)
    requires !touch ==> (BTN_MIDDLE in held <==> Bit(mask, 1))
    ensures held * PointerButtons(touch) == MaskCodes(touch, mask) * PointerButtons(touch)
    ensures (MiddleCode(touch) in held <==> Bit(mask, 1)) <==> held * PointerCodes(touch) == MaskCodes(touch, mask)
  {
    if held * PointerCodes(touch) == MaskCodes(touch, mask) {
      assert MiddleCode(touch) in held * PointerCodes(touch) <==> MiddleCode(touch) in MaskCodes(touch, mask);
    }
  }

  /** Which bit of the mask is which code, in numbers: with the device open, in touch mode bit 0 is
      the touch (0x14a), bit 2 the back key (158) and bit 1 the end key (107), in mouse mode bits 0, 1 and 2 are the left
      (0x110), middle (0x112) and right (0x111) button. */
  lemma ButtonsByNumber(garbage: Device, calls: seq<Call>)
    requires StartsWhenClosed(calls) && CountAll(calls).open
    ensures var held, r := KernelAfter(garbage, calls).held, CountAll(calls);
      && (r.touch ==> (0x14a in held <==> r.mask % 2 == 1) && (158 in held <==> (r.mask / 4) % 2 == 1))
      && (!r.touch ==>
            && (0x110 in held <==> r.mask % 2 == 1)
            && (0x112 in held <==> (r.mask / 2) % 2 == 1)
            && (0x111 in held <==> (r.mask / 4) % 2 == 1))
      && (r.touch && EndKeyAgrees(calls) ==> (107 in held <==> (r.mask / 2) % 2 == 1))
  {
    ButtonsByName(garbage, calls);
    BitsByNumber(CountAll(calls).mask);
  }

  lemma ButtonsByName(garbage: Device, calls: seq<Call>)
    requires StartsWhenClosed(calls) && CountAll(calls).open
    ensures var held, r := KernelAfter(garbage, calls).held, CountAll(calls);
      && (r.touch ==> (0x14a in held <==> Bit(r.mask, 0)) && (158 in held <==> Bit(r.mask, 2)))
      && (!r.touch ==>
            (0x110 in held <==> Bit(r.mask, 0)) && (0x112 in held <==> Bit(r.mask, 1)) && (0x111 in held <==> Bit(r.mask, 2)))
      && (r.touch && EndKeyAgrees(calls) ==> (107 in held <==> Bit(r.mask, 1)))
  {
    RunsAgree(garbage, calls);
    if CountAll(calls).touch { EndFollowsMiddle(garbage, calls); }
  }

  lemma BitsByNumber(mask: int)
    ensures Bit(mask, 0) <==> mask % 2 == 1
    ensures Bit(mask, 1) <==> (mask / 2) % 2 == 1
    ensures Bit(mask, 2) <==> (mask / 4) % 2 == 1
  {}

  function NumberedTicks(mask: int): int {
    (if (mask / 8) % 2 == 1 then 1 else 0) - (if (mask / 16) % 2 == 1 then 1 else 0)
  }

  /** And the wheel: one pointer event on an open device moves it up for bit 3 and down for bit 4. */
  lemma WheelByNumber(garbage: Device, calls: seq<Call>, mask: int, x: Coord, y: Coord)
    requires StartsWhenClosed(calls) && CountAll(calls).open
    ensures KernelAfter(garbage, calls + [Call.PointerEvent(mask, x, y)]).wheel == KernelAfter(garbage, calls).wheel + NumberedTicks(mask)
  {
    var after := calls + [Call.PointerEvent(mask, x, y)];
    PointerIsCounted(calls, mask, x, y);
    WheelIsCounted(garbage, calls);
    WheelIsCounted(garbage, after);
  }

  lemma PointerIsCounted(calls: seq<Call>, mask: int, x: Coord, y: Coord)
    requires StartsWhenClosed(calls) && CountAll(calls).open
    ensures var after := calls + [Call.PointerEvent(mask, x, y)];
      StartsWhenClosed(after) && CountAll(after).open && CountAll(after).wheel == CountAll(calls).wheel + NumberedTicks(mask)
  {
    Appended(calls, Call.PointerEvent(mask, x, y));
    TicksByNumber(mask);
  }

  lemma TicksByNumber(mask: int)
    ensures WheelTicks(mask) == NumberedTicks(mask)
  {}

  lemma WheelIsCounted(garbage: Device, calls: seq<Call>)
    requires StartsWhenClosed(calls) && CountAll(calls).open
    ensures KernelAfter(garbage, calls).wheel == CountAll(calls).wheel
  {
    RunsAgree(garbage, calls);
  }

  lemma OpenIsCounted(garbage: Device, calls: seq<Call>)
    requires StartsWhenClosed(calls)
    ensures Run(Fresh(garbage), calls).fdOpen == CountAll(calls).open
  {
    RunsAgree(garbage, calls);
  }

  /** Once there has been a stop, the object takes events exactly while the descriptor is open. */
  lemma {:induction false} ReadyMeansOpen(garbage: Device, calls: seq<Call>)
    requires StartsWhenClosed(calls) && Call.Stop in calls
    ensures var d := Run(Fresh(garbage), calls); d.ready == d.fdOpen
  {
    var before, call := calls[..|calls| - 1], calls[|calls| - 1];
    OpenIsCounted(garbage, before);
    if !call.Stop? {
      assert calls == before + [call];
      ReadyMeansOpen(garbage, before);
    }
  }

  /** On a touch screen a pointer that presses nothing, before or now, reports nothing. */
  lemma HoverIsSilent(d: Device, mask: int, x: int, y: int)
    requires d.touch && !d.left && !d.middle && !d.right && mask % 32 == 0
    ensures PointerOutput(d, mask, x, y) == []
  {
    BitsByNumber(mask);
    TicksByNumber(mask);
    assert !Bit(mask, 3) && !Bit(mask, 4);
  }

  /** All at once on a relative mouse: the move, then left, right and middle, then the wheel up, each
      in its own frame. */
  lemma ReportsInOrder(d: Device, x: int, y: int)
    requires !d.touch && d.relative && !d.left && !d.middle && !d.right
    ensures PointerOutput(d, 15, x, y)
         == [Rel(0, x - d.lastX), Rel(1, y - d.lastY), Syn,
             Key(0x110, 1), Syn, Key(0x111, 1), Syn, Key(0x112, 1), Syn, Rel(8, 1), Syn]
  {
    var left, right, middle := [Key(BTN_LEFT, 1), Syn], [Key(BTN_RIGHT, 1), Syn], [Key(BTN_MIDDLE, 1), Syn];
    assert Button(true, BTN_LEFT, false, true, true, x, y) == left;
    assert Button(true, BTN_RIGHT, false, true, false, x, y) == right;
    assert Button(true, BTN_MIDDLE, false, true, false, x, y) == middle;
    assert Wheel(15) == [Rel(8, 1), Syn];
  }

  // ---- Where a button is when it is reported ----

  /** Whenever `es` reports a key of the given codes, the position has already been reported. */
  ghost predicate KeysAt(k: Kernel, es: seq<Entry>, codes: set<int>, x: int, y: int)
    decreases es
  {
    es != [] ==>
      && (es[0].Key? && es[0].code in codes ==> k.absX == x && k.absY == y)
      && KeysAt(KStep(k, es[0]), es[1..], codes, x, y)
  }

  lemma {:induction false} KeysAtAppend(k: Kernel, a: seq<Entry>, b: seq<Entry>, codes: set<int>, x: int, y: int)
    ensures KeysAt(k, a + b, codes, x, y) <==> KeysAt(k, a, codes, x, y) && KeysAt(KRun(k, a), b, codes, x, y)
    decreases a
  {
    if a == [] {
      assert a + b == b;
    } else {
      assert (a + b)[1..] == a[1..] + b;
      KeysAtAppend(KStep(k, a[0]), a[1..], b, codes, x, y);
    }
  }

  ghost predicate IsAt(k: Kernel, x: int, y: int) { k.absX == x && k.absY == y }

  /** Stretches of positions and syncs move to (x, y) or nowhere, and a key is reported there if the
      reader is there or the stretch starts with the position. */
  lemma ButtonKeysAt(k: Kernel, code: int, was: bool, now: bool, report: bool, codes: set<int>, x: int, y: int)
    requires report || IsAt(k, x, y) || code !in codes
    ensures KeysAt(k, Button(false, code, was, now, report, x, y), codes, x, y)
    ensures IsAt(k, x, y) ==> IsAt(KRun(k, Button(false, code, was, now, report, x, y)), x, y)
  {
    var at := [Abs(ABS_X, x), Abs(ABS_Y, y)];
    var press := [Key(code, if now then 1 else 0), Syn];
    PositionAt(k, codes, x, y);
    if now != was {
      var position := Position(!report, x, y);
      KeysAtAppend(k, position, press, codes, x, y);
      KRunAppend(k, position, press);
      PressAt(KRun(k, position), code, now, codes, x, y);
    } else if was {
      KeysAtAppend(k, at, [Syn], codes, x, y);
      KRunAppend(k, at, [Syn]);
      assert at + [Syn] == [Abs(ABS_X, x), Abs(ABS_Y, y), Syn];
      SynAt(KRun(k, at), codes, x, y);
    }
  }

  lemma PositionAt(k: Kernel, codes: set<int>, x: int, y: int)
    ensures var at := [Abs(ABS_X, x), Abs(ABS_Y, y)]; KeysAt(k, at, codes, x, y) && IsAt(KRun(k, at), x, y)
  {
    var at := [Abs(ABS_X, x), Abs(ABS_Y, y)];
    assert at[1..] == [Abs(ABS_Y, y)] && at[1..][1..] == [];
    KRun2(k, at[0], at[1]);
    assert KeysAt(KStep(KStep(k, at[0]), at[1]), [], codes, x, y);
  }

  lemma SynAt(k: Kernel, codes: set<int>, x: int, y: int)
    ensures KeysAt(k, [Syn], codes, x, y) && (IsAt(k, x, y) ==> IsAt(KRun(k, [Syn]), x, y))
  {
    assert [Syn][1..] == [];
    KRun1(k, Syn);
  }

  lemma PressAt(k: Kernel, code: int, now: bool, codes: set<int>, x: int, y: int)
    requires IsAt(k, x, y) || code !in codes
    ensures var press := [Key(code, if now then 1 else 0), Syn];
      KeysAt(k, press, codes, x, y) && (IsAt(k, x, y) ==> IsAt(KRun(k, press), x, y))
  {
    var press := [Key(code, if now then 1 else 0), Syn];
    assert press[1..] == [Syn];
    SynAt(KStep(k, press[0]), codes, x, y);
    KRun2(k, press[0], press[1]);
  }

  /** With absolute positions no touch (0x14a) is reported before its position, pressing or
      releasing, and with a mouse no button (0x110, 0x111, 0x112) is. */
  lemma PressedWhereReported(k: Kernel, d: Device, mask: int, x: int, y: int)
    requires !d.relative
    ensures KeysAt(k, PointerOutput(d, mask, x, y), if d.touch then {0x14a} else {0x110, 0x111, 0x112}, x, y)
  {
    var codes := if d.touch then {0x14a} else {0x110, 0x111, 0x112};
    var l := Button(false, LeftCode(d.touch), d.left, Bit(mask, 0), true, x, y);
    var r := Button(false, RightCode(d.touch), d.right, Bit(mask, 2), false, x, y);
    var m := Button(false, MiddleCode(d.touch), d.middle, Bit(mask, 1), false, x, y);
    MotionAt(k, d, codes, x, y);
    var k1 := KRun(k, Motion(d, x, y));
    ButtonKeysAt(k1, LeftCode(d.touch), d.left, Bit(mask, 0), true, codes, x, y);
    var k2 := KRun(k1, l);
    ButtonKeysAt(k2, RightCode(d.touch), d.right, Bit(mask, 2), false, codes, x, y);
    var k3 := KRun(k2, r);
    ButtonKeysAt(k3, MiddleCode(d.touch), d.middle, Bit(mask, 1), false, codes, x, y);
    WheelAt(KRun(k3, m), mask, codes, x, y);
    KeysAtFive(k, Motion(d, x, y), l, r, m, Wheel(mask), codes, x, y);
  }

  lemma KeysAtFive(k: Kernel, a: seq<Entry>, b: seq<Entry>, c: seq<Entry>, d: seq<Entry>, e: seq<Entry>, codes: set<int>, x: int, y: int)
    requires var k1 := KRun(k, a); var k2 := KRun(k1, b); var k3 := KRun(k2, c); var k4 := KRun(k3, d);
      && KeysAt(k, a, codes, x, y) && KeysAt(k1, b, codes, x, y) && KeysAt(k2, c, codes, x, y)
      && KeysAt(k3, d, codes, x, y) && KeysAt(k4, e, codes, x, y)
    ensures KeysAt(k, a + ((b + (c + d)) + e), codes, x, y)
  {
    var k1 := KRun(k, a);
    var k2 := KRun(k1, b);
    KeysAtAppend(k2, c, d, codes, x, y);
    KRunAppend(k2, c, d);
    KeysAtAppend(k1, b, c + d, codes, x, y);
    KRunAppend(k1, b, c + d);
    KeysAtAppend(k1, b + (c + d), e, codes, x, y);
    KeysAtAppend(k, a, (b + (c + d)) + e, codes, x, y);
  }

  lemma MotionAt(k: Kernel, d: Device, codes: set<int>, x: int, y: int)
    requires !d.relative
    ensures KeysAt(k, Motion(d, x, y), codes, x, y) && (!d.touch ==> IsAt(KRun(k, Motion(d, x, y)), x, y))
  {
    if !d.touch {
      var at := [Abs(ABS_X, x), Abs(ABS_Y, y)];
      PositionAt(k, codes, x, y);
      KeysAtAppend(k, at, [Syn], codes, x, y);
      KRunAppend(k, at, [Syn]);
      SynAt(KRun(k, at), codes, x, y);
      assert at + [Syn] == Motion(d, x, y);
    }
  }

  /** Nothing of the wheel is a key. */
  lemma WheelAt(k: Kernel, mask: int, codes: set<int>, x: int, y: int)
    ensures KeysAt(k, Wheel(mask), codes, x, y)
  {
    NoKeysAt(k, Wheel(mask), codes, x, y);
  }

  lemma {:induction false} NoKeysAt(k: Kernel, es: seq<Entry>, codes: set<int>, x: int, y: int)
    requires forall e | e in es :: !e.Key?
    ensures KeysAt(k, es, codes, x, y)
    decreases es
  {
    if es != [] {
      assert es[0] in es;
      NoKeysAt(KStep(k, es[0]), es[1..], codes, x, y);
    }
  }

  /** With absolute positions, dragging any button, the left, the middle or the right, ends at the
      position of the event. */
  lemma DragIsReported(k: Kernel, d: Device, mask: int, x: int, y: int)
    requires !d.relative && ((d.left && Bit(mask, 0)) || (d.middle && Bit(mask, 1)) || (d.right && Bit(mask, 2)))
    ensures IsAt(KRun(k, PointerOutput(d, mask, x, y)), x, y)
  {
    var l := Button(false, LeftCode(d.touch), d.left, Bit(mask, 0), true, x, y);
    var r := Button(false, RightCode(d.touch), d.right, Bit(mask, 2), false, x, y);
    var m := Button(false, MiddleCode(d.touch), d.middle, Bit(mask, 1), false, x, y);
    var k1 := KRun(k, Motion(d, x, y));
    var k2 := KRun(k1, l);
    var k3 := KRun(k2, r);
    DragMoves(k1, LeftCode(d.touch), d.left, Bit(mask, 0), true, x, y);
    DragMoves(k2, RightCode(d.touch), d.right, Bit(mask, 2), false, x, y);
    DragMoves(k3, MiddleCode(d.touch), d.middle, Bit(mask, 1), false, x, y);
    WheelStays(KRun(k3, m), Wheel(mask), x, y);
    KRunAppend3(k, Motion(d, x, y), l + (r + m), Wheel(mask));
    KRunAppend3(k1, l, r, m);
  }

  lemma DragMoves(k: Kernel, code: int, was: bool, now: bool, report: bool, x: int, y: int)
    ensures IsAt(k, x, y) || (was && now) ==> IsAt(KRun(k, Button(false, code, was, now, report, x, y)), x, y)
  {
    if was && now {
      KRun3(k, Abs(ABS_X, x), Abs(ABS_Y, y), Syn);
    } else {
      ButtonKeysAt(k, code, was, now, report, {}, x, y);
    }
  }

  lemma {:induction false} WheelStays(k: Kernel, es: seq<Entry>, x: int, y: int)
    requires IsAt(k, x, y) && forall e | e in es :: e.Rel? || e.Syn?
    ensures IsAt(KRun(k, es), x, y)
    decreases es
  {
    if es != [] {
      assert es[0] in es;
      WheelStays(KStep(k, es[0]), es[1..], x, y);
    }
  }

  /** A stroke of the End key releases KEY_END, whatever the buttons. */
  lemma EndStroke(garbage: Device, calls: seq<Call>)
    requires StartsWhenClosed(calls) && CountAll(calls).open
    ensures var after := calls + [Call.KeyEvent(true, XK_END)] + [Call.KeyEvent(false, XK_END)];
      && StartsWhenClosed(after) && CountAll(after).open && CountAll(after).mask == CountAll(calls).mask
      && KEY_END !in KernelAfter(garbage, after).held
  {
    var down := calls + [Call.KeyEvent(true, XK_END)];
    EndOwnsEnd();
    Appended(calls, Call.KeyEvent(true, XK_END));
    Appended(down, Call.KeyEvent(false, XK_END));
    HeldExactly(garbage, down + [Call.KeyEvent(false, XK_END)]);
  }

  /** So the condition is needed: in touch mode, with the middle button down, one stroke of the
      End key releases it. */
  lemma EndKeyReleasesMiddle(garbage: Device)
    ensures var pressed := Started(true) + [Call.PointerEvent(2, 5, 5)];
            var calls := pressed + [Call.KeyEvent(true, XK_END)] + [Call.KeyEvent(false, XK_END)];
      && StartsWhenClosed(calls) && CountAll(calls).open && Bit(CountAll(calls).mask, 1)
      && KEY_END !in KernelAfter(garbage, calls).held
  {
    StartedIsOpen(true);
    Appended(Started(true), Call.PointerEvent(2, 5, 5));
    EndStroke(garbage, Started(true) + [Call.PointerEvent(2, 5, 5)]);
  }

  /** Motion and wheel are conserved over the session: relative moves add up to the last
      position, absolute reports end on it, and the net wheel is the count of the masks. */
  lemma MotionIsConserved(garbage: Device, calls: seq<Call>)
    requires StartsWhenClosed(calls) && CountAll(calls).open
    ensures var k, r := KernelAfter(garbage, calls), CountAll(calls);
      && k.wheel == r.wheel
      && (!r.touch && r.relative ==> k.relX == r.x && k.relY == r.y)
      && (!r.touch && !r.relative ==> k.absX == r.x && k.absY == r.y)
      && (r.touch && !r.relative && Bit(r.mask, 0) ==> k.absX == r.x && k.absY == r.y)
  {
    RunsAgree(garbage, calls);
  }

  /** The stream is well formed: between calls no frame is open, no frame ever carried two key
      transitions, only registered codes were written, and positions that the caller keeps
      inside the axes stay inside the registered range. */
  lemma StreamIsWellFormed(garbage: Device, calls: seq<Call>)
    requires StartsWhenClosed(calls)
    ensures var k := KernelAfter(garbage, calls);
      && !k.frameOpen && k.oneKeyPerFrame && k.registered
      && (CountAll(calls).pointersInRange ==> k.inRange)
  {
    RunsAgree(garbage, calls);
  }

  // ---- A start that finds the device open ----

  /** The condition on starts is needed. A start on an open device clears the flags and not the
      keys, so the next empty mask releases nothing: the pointer buttons come out clean if and
      only if no button was down when start was called. */
  lemma StartOnOpenDevice(d: Device, k: Kernel, r: Recount, start: Call, x: Coord, y: Coord)
    requires Agree(d, k, r) && r.open && start.Start? && k == KRun(NO_DEVICE, d.log)
    ensures var d' := Step(Step(d, start), Call.PointerEvent(0, x, y));
            var k' := KRun(NO_DEVICE, d'.log);
      k'.held == k.held
      && (k'.held !! PointerButtons(r.touch) <==>
            !Bit(r.mask, 0) && !Bit(r.mask, 2) && (r.touch || !Bit(r.mask, 1)))
  {
    var started := Step(d, start);
    EmptyMaskOnlyMoves(started, k, x, y);
    KRunAppend(NO_DEVICE, d.log, PointerOutput(started, 0, x, y));
  }

  /** With no flag set, an empty mask writes motion only. */
  lemma EmptyMaskOnlyMoves(d: Device, k: Kernel, x: int, y: int)
    requires !d.left && !d.middle && !d.right && k.open && StreamGood(k)
    ensures KRun(k, PointerOutput(d, 0, x, y)).held == k.held
  {
    assert PointerOutput(d, 0, x, y) == Motion(d, x, y);
    KRunMotion(k, d, x, y);
  }

  lemma StartAgainSticks(garbage: Device, calls: seq<Call>, start: Call)
    requires StartsWhenClosed(calls) && start.Start?
    requires var r := CountAll(calls); r.open && !r.touch && Bit(r.mask, 0)
    ensures BTN_LEFT in KernelAfter(garbage, calls + [start] + [Call.PointerEvent(0, 5, 5)]).held
  {
    var started := calls + [start];
    var released := started + [Call.PointerEvent(0, 5, 5)];
    assert released[..|started|] == started && started[..|calls|] == calls;
    RunsAgree(garbage, calls);
    var d := Run(Fresh(garbage), calls);
    StartOnOpenDevice(d, KRun(NO_DEVICE, d.log), CountAll(calls), start, 5, 5);
    assert Run(Fresh(garbage), released) == Step(Step(d, start), Call.PointerEvent(0, 5, 5));
  }

  /** The shortest such run: press the left button, start again, release it. */
  lemma StartOnOpenDeviceSticks(garbage: Device)
    ensures var pressed := Started(false) + [Call.PointerEvent(1, 5, 5)];
            var calls := pressed + [Call.Start(1080, 1920, false, false, Created)] + [Call.PointerEvent(0, 5, 5)];
      BTN_LEFT in KernelAfter(garbage, calls).held
  {
    StartedIsOpen(false);
    Appended(Started(false), Call.PointerEvent(1, 5, 5));
    StartAgainSticks(garbage, Started(false) + [Call.PointerEvent(1, 5, 5)], Call.Start(1080, 1920, false, false, Created));
  }
}
