/** The input device behind the desktop: which calls a run of the desktop makes on it, what the
    kernel then holds and reports, and when the axes it registered still fit the panel. */
module DesktopInput {
  import opened Letterbox
  import opened Geometry
  import opened GeometryRuns
  import opened Options
  import Input
  import InputStream
  import InputRuns
  import KeyTranslation
  import Keymap

  type Calls = seq<Input.Call>

  // ---- The calls of a run ----

  function RestartCalls(w: World, outcome: StartOutcome): Calls {
    [Input.Call.Stop] + [Input.Call.Start(w.desk.mode.width, w.desk.mode.height, w.desk.touch, w.desk.relative, outcome)]
  }

  function RotationCalls(w: World, rotated: bool, outcome: StartOutcome): Calls {
    if rotated == w.pixels.rotated then [] else RestartCalls(w, outcome)
  }

  function UpdateCalls(w: World, fromDisplay: bool, outcome: StartOutcome): Calls
    requires Sound(w)
  {
    var client := if fromDisplay then ScaledSource(w.pixels, w.pixels.source) else w.pixels.client;
    if client == w.pixels.size then [] else RestartCalls(w, outcome)
  }

  function SourceCalls(turned: World, source: Size, force: bool, outcome: StartOutcome): Calls
    requires Sound(turned)
  {
    if source != turned.pixels.source || force
    then UpdateCalls(turned.(pixels := turned.pixels.(source := source)), true, outcome)
    else []
  }

  function DisplayInfoCalls(w: World, force: bool, first: StartOutcome, second: StartOutcome): Calls
    requires Sound(w)
  {
    RotationCalls(w, IsDisplayRotated(w.desk.rotation), first)
    + SourceCalls(SetBufferRotation(w, IsDisplayRotated(w.desk.rotation), first),
                  Oriented(w.desk.mode, w.desk.rotation), force, second)
  }

  /** The world as setDisplayInfo finds it. */
  function Read(w: World, panel: Panel): World
    requires ValidPanel(panel)
  {
    w.(desk := w.desk.(mode := PanelMode(panel), rotation := PanelRotation(panel)))
  }

  function PointerCall(w: World, mask: int, x: int, y: int, castX: nat, castY: nat): Input.Call
    requires InRect(w.desk.rect, x, y)
  {
    var r := w.desk.rect;
    Input.Call.PointerEvent(mask,
      ToInt32(CastAxis(x, w.pixels.size.width, r.Width(), w.desk.mode.width, castX)),
      ToInt32(CastAxis(y, w.pixels.size.height, r.Height(), w.desk.mode.height, castY)))
  }

  function OpCalls(w: World, op: Op): Calls
    requires Sound(w)
  {
    match op
    case Refresh(panel, first, second) =>
      if ValidPanel(panel) then DisplayInfoCalls(Read(w, panel), false, first, second) else []
    case Resize(mirrors, width, height, outcome) =>
      if Accepted(w, mirrors, width, height) && w.pixels.client != Size(width, height)
      then UpdateCalls(w.(pixels := w.pixels.(client := Size(width, height))), false, outcome)
      else []
    case Props(_, _) => []
    case Key(down, keysym) => [Input.Call.KeyEvent(down, keysym)]
    case Pointer(mask, x, y, castX, castY) =>
      if InRect(w.desk.rect, x, y) then [PointerCall(w, mask, x, y, castX, castY)] else []
  }

  function RunCalls(w: World, ops: seq<Op>): Calls
    requires Good(w)
  {
    if ops == [] then [] else RunCalls(w, ops[..|ops| - 1]) + OpCalls(After(w, ops[..|ops| - 1]), ops[|ops| - 1])
  }

  /** All calls since the desktop was made. */
  function DesktopCalls(g: Garbage, panel: Panel, first: StartOutcome, second: StartOutcome, ops: seq<Op>): Calls
    requires ValidPanel(panel)
  {
    DisplayInfoCalls(Read(Unstarted(g), panel), true, first, second) + RunCalls(Begin(g, panel, first, second), ops)
  }

  // ---- They are the calls that the device has seen, and every start finds it closed ----

  /** The device was brought to d by these calls, each start of which found it closed. */
  predicate Fed(d: Input.Device, g: Input.Device, calls: Calls) {
    d == Input.Run(InputRuns.Fresh(g), calls) && InputRuns.StartsWhenClosed(calls)
  }

  /** What a restart leaves of the recount. */
  function Restarted(r: InputRuns.Recount, w: World, outcome: StartOutcome): InputRuns.Recount {
    var start := Input.Call.Start(w.desk.mode.width, w.desk.mode.height, w.desk.touch, w.desk.relative, outcome);
    InputRuns.Count(InputRuns.Count(r, Input.Call.Stop), start)
  }

  lemma OneCall(d: Input.Device, g: Input.Device, calls: Calls, call: Input.Call)
    requires Fed(d, g, calls) && (call.Start? ==> !InputRuns.CountAll(calls).open)
    ensures Fed(Input.Step(d, call), g, calls + [call])
    ensures InputRuns.CountAll(calls + [call]) == InputRuns.Count(InputRuns.CountAll(calls), call)
  {
    assert (calls + [call])[..|calls + [call]| - 1] == calls;
  }

  lemma RestartFeeds(w: World, outcome: StartOutcome, g: Input.Device, calls: Calls)
    requires w.desk.mode.Positive() && Fed(w.input, g, calls)
    ensures Fed(DimensionsChanged(w, outcome).input, g, calls + RestartCalls(w, outcome))
    ensures InputRuns.CountAll(calls + RestartCalls(w, outcome)) == Restarted(InputRuns.CountAll(calls), w, outcome)
  {
    var start := Input.Call.Start(w.desk.mode.width, w.desk.mode.height, w.desk.touch, w.desk.relative, outcome);
    OneCall(w.input, g, calls, Input.Call.Stop);
    OneCall(Input.Step(w.input, Input.Call.Stop), g, calls + [Input.Call.Stop], start);
    assert calls + RestartCalls(w, outcome) == calls + [Input.Call.Stop] + [start];
  }

  /** Either no call at all, or a restart: the keysyms that are down and the verdict on positions
      are the same, and a device that is open is new and has the axes of the mode and the kind that
      setDisplayProps asked for. */
  predicate Rebuilt(r: InputRuns.Recount, r': InputRuns.Recount, mode: Size, kind: Kind, untouched: bool) {
    if untouched then r' == r
    else
      && r'.down == r.down && r'.pointersInRange == r.pointersInRange
      && (r'.open ==>
            && r'.mask == 0 && r'.width == mode.width && r'.height == mode.height
            && r'.touch == kind.touch && r'.relative == kind.relative)
  }

  /** Touch screen or mouse, relative or absolute. */
  datatype Kind = Kind(touch: bool, relative: bool)

  function KindOf(d: Desk): Kind { Kind(d.touch, d.relative) }

  lemma RotationFeeds(w: World, rotated: bool, outcome: StartOutcome, g: Input.Device, calls: Calls)
    requires Sound(w) && Fed(w.input, g, calls)
    ensures var more := RotationCalls(w, rotated, outcome);
      && Fed(SetBufferRotation(w, rotated, outcome).input, g, calls + more)
      && Rebuilt(InputRuns.CountAll(calls), InputRuns.CountAll(calls + more), w.desk.mode, KindOf(w.desk), more == [])
  {
    if rotated == w.pixels.rotated {
      assert calls + [] == calls;
    } else {
      var p := w.pixels;
      var turning := w.(pixels := p.(rotated := rotated, size := p.size.Transposed(), scaleX := p.scaleY, scaleY := p.scaleX));
      RestartFeeds(turning, outcome, g, calls);
      assert RestartCalls(turning, outcome) == RestartCalls(w, outcome);
    }
  }

  lemma UpdateRestarts(w: World, fromDisplay: bool, outcome: StartOutcome)
    requires Sound(w)
    ensures var more := UpdateCalls(w, fromDisplay, outcome);
      && (more == [] || more == RestartCalls(w, outcome))
      && Geometry.UpdateBufferSize(w, fromDisplay, outcome).input
         == if more == [] then w.input else DimensionsChanged(w, outcome).input
  {}

  lemma UpdateFeeds(w: World, fromDisplay: bool, outcome: StartOutcome, g: Input.Device, calls: Calls)
    requires Sound(w) && Fed(w.input, g, calls)
    ensures var more := UpdateCalls(w, fromDisplay, outcome);
      && Fed(Geometry.UpdateBufferSize(w, fromDisplay, outcome).input, g, calls + more)
      && Rebuilt(InputRuns.CountAll(calls), InputRuns.CountAll(calls + more), w.desk.mode, KindOf(w.desk), more == [])
  {
    UpdateRestarts(w, fromDisplay, outcome);
    if UpdateCalls(w, fromDisplay, outcome) == [] {
      assert calls + [] == calls;
    } else {
      RestartFeeds(w, outcome, g, calls);
    }
  }

  lemma SourceFeeds(w: World, turned: World, force: bool, first: StartOutcome, second: StartOutcome, g: Input.Device, calls: Calls)
    requires Sound(w) && turned == SetBufferRotation(w, IsDisplayRotated(w.desk.rotation), first)
    requires Sound(turned) && turned.desk.mode == w.desk.mode && Fed(turned.input, g, calls)
    ensures var more := SourceCalls(turned, Oriented(w.desk.mode, w.desk.rotation), force, second);
      && Fed(SetDisplayInfo(w, force, first, second).input, g, calls + more)
      && Rebuilt(InputRuns.CountAll(calls), InputRuns.CountAll(calls + more), w.desk.mode, KindOf(w.desk), more == [])
  {
    var source := Oriented(w.desk.mode, w.desk.rotation);
    if source != turned.pixels.source || force {
      UpdateFeeds(turned.(pixels := turned.pixels.(source := source)), true, second, g, calls);
    } else {
      assert calls + [] == calls;
    }
  }

  lemma DisplayInfoFeeds(w: World, force: bool, first: StartOutcome, second: StartOutcome, g: Input.Device, calls: Calls)
    requires Sound(w) && Fed(w.input, g, calls)
    ensures var more := DisplayInfoCalls(w, force, first, second);
      && Fed(SetDisplayInfo(w, force, first, second).input, g, calls + more)
      && Rebuilt(InputRuns.CountAll(calls), InputRuns.CountAll(calls + more), w.desk.mode, KindOf(w.desk), more == [])
  {
    var turned := SetBufferRotation(w, IsDisplayRotated(w.desk.rotation), first);
    var one := RotationCalls(w, IsDisplayRotated(w.desk.rotation), first);
    RotationFeeds(w, IsDisplayRotated(w.desk.rotation), first, g, calls);
    RotationKeepsMode(w, IsDisplayRotated(w.desk.rotation), first);
    var two := SourceCalls(turned, Oriented(w.desk.mode, w.desk.rotation), force, second);
    SourceFeeds(w, turned, force, first, second, g, calls + one);
    Associates(calls, one, two);
  }

  lemma RotationKeepsMode(w: World, rotated: bool, outcome: StartOutcome)
    requires Sound(w)
    ensures var w' := SetBufferRotation(w, rotated, outcome);
      Sound(w') && w'.desk.mode == w.desk.mode && KindOf(w'.desk) == KindOf(w.desk)
  {}

  /** What one operation does to the recount. */
  predicate OpCounted(r: InputRuns.Recount, r': InputRuns.Recount, w: World, op: Op)
    requires Sound(w)
  {
    match op
    case Refresh(panel, _, _) =>
      if ValidPanel(panel) then Rebuilt(r, r', PanelMode(panel), KindOf(w.desk), OpCalls(w, op) == []) else r' == r
    case Resize(_, _, _, _) => Rebuilt(r, r', w.desk.mode, KindOf(w.desk), OpCalls(w, op) == [])
    case Props(_, _) => r' == r
    case Key(down, keysym) => r' == InputRuns.Count(r, Input.Call.KeyEvent(down, keysym))
    case Pointer(mask, x, y, castX, castY) =>
      if InRect(w.desk.rect, x, y) then r' == InputRuns.Count(r, PointerCall(w, mask, x, y, castX, castY)) else r' == r
  }

  lemma OpFeeds(w: World, op: Op, g: Input.Device, calls: Calls)
    requires Good(w) && Fed(w.input, g, calls)
    ensures Fed(Apply(w, op).input, g, calls + OpCalls(w, op))
    ensures OpCounted(InputRuns.CountAll(calls), InputRuns.CountAll(calls + OpCalls(w, op)), w, op)
  {
    assert calls + [] == calls;
    match op
    case Refresh(panel, first, second) =>
      if ValidPanel(panel) { DisplayInfoFeeds(Read(w, panel), false, first, second, g, calls); }
    case Resize(mirrors, width, height, outcome) =>
      if Accepted(w, mirrors, width, height) && w.pixels.client != Size(width, height) {
        UpdateFeeds(w.(pixels := w.pixels.(client := Size(width, height))), false, outcome, g, calls);
      }
    case Props(_, _) =>
    case Key(down, keysym) => OneCall(w.input, g, calls, Input.Call.KeyEvent(down, keysym));
    case Pointer(mask, x, y, castX, castY) =>
      if InRect(w.desk.rect, x, y) { OneCall(w.input, g, calls, PointerCall(w, mask, x, y, castX, castY)); }
  }

  /** The keysyms whose last key operation was a down. */
  function DownKeys(ops: seq<Op>): set<int> {
    if ops == [] then {}
    else
      var before := DownKeys(ops[..|ops| - 1]);
      match ops[|ops| - 1]
      case Key(down, keysym) => if down then before + {keysym} else before - {keysym}
      case _ => before
  }

  /** The mask that the device has: that of the last pointer operation that fell inside the desktop
      rectangle, and none again after each restart. */
  function DeviceMask(w: World, ops: seq<Op>): int
    requires Good(w)
  {
    if ops == [] then 0
    else
      var before, op := After(w, ops[..|ops| - 1]), ops[|ops| - 1];
      match op
      case Pointer(mask, x, y, _, _) => if InRect(before.desk.rect, x, y) then mask else DeviceMask(w, ops[..|ops| - 1])
      case Refresh(_, _, _) => if OpCalls(before, op) != [] then 0 else DeviceMask(w, ops[..|ops| - 1])
      case Resize(_, _, _, _) => if OpCalls(before, op) != [] then 0 else DeviceMask(w, ops[..|ops| - 1])
      case _ => DeviceMask(w, ops[..|ops| - 1])
  }

  lemma BeginFeeds(g: Garbage, panel: Panel, first: StartOutcome, second: StartOutcome)
    requires ValidPanel(panel)
    ensures var calls := DisplayInfoCalls(Read(Unstarted(g), panel), true, first, second);
      && Fed(Begin(g, panel, first, second).input, g.input, calls)
      && Rebuilt(InputRuns.NOTHING_YET, InputRuns.CountAll(calls), PanelMode(panel), Kind(g.touch, g.relative), calls == [])
  {
    var more := DisplayInfoCalls(Read(Unstarted(g), panel), true, first, second);
    DisplayInfoFeeds(Read(Unstarted(g), panel), true, first, second, g.input, []);
    assert [] + more == more;
  }

  /** End to end: over every run of panel readings, resizes, keys and pointers the input device has
      seen exactly the calls of the run, each start found it closed, and the keys that are down and
      the mask are those of the operations. */
  lemma {:induction false} DesktopFeedsInput(g: Garbage, panel: Panel, first: StartOutcome, second: StartOutcome, ops: seq<Op>)
    requires ValidPanel(panel)
    ensures var w0, calls := Begin(g, panel, first, second), DesktopCalls(g, panel, first, second, ops);
      && Fed(After(w0, ops).input, g.input, calls)
      && InputRuns.CountAll(calls).down == DownKeys(ops)
      && (InputRuns.CountAll(calls).open ==> InputRuns.CountAll(calls).mask == DeviceMask(w0, ops))
  {
    var w0 := Begin(g, panel, first, second);
    BeginFeeds(g, panel, first, second);
    var begun := DisplayInfoCalls(Read(Unstarted(g), panel), true, first, second);
    if ops == [] {
      assert begun + [] == begun;
    } else {
      DesktopFeedsInput(g, panel, first, second, ops[..|ops| - 1]);
      NextOpFeeds(g, panel, first, second, ops);
    }
  }

  lemma CallsGrow(g: Garbage, panel: Panel, first: StartOutcome, second: StartOutcome, ops: seq<Op>)
    requires ValidPanel(panel) && ops != []
    ensures DesktopCalls(g, panel, first, second, ops)
         == DesktopCalls(g, panel, first, second, ops[..|ops| - 1])
            + OpCalls(After(Begin(g, panel, first, second), ops[..|ops| - 1]), ops[|ops| - 1])
  {
    var w0 := Begin(g, panel, first, second);
    Associates(DisplayInfoCalls(Read(Unstarted(g), panel), true, first, second), RunCalls(w0, ops[..|ops| - 1]),
               OpCalls(After(w0, ops[..|ops| - 1]), ops[|ops| - 1]));
  }

  lemma Associates(a: Calls, b: Calls, c: Calls)
    ensures a + (b + c) == a + b + c
  {}

  /** The calls of a run and one more operation. */
  lemma NextOpFeeds(g: Garbage, panel: Panel, first: StartOutcome, second: StartOutcome, ops: seq<Op>)
    requires ValidPanel(panel) && ops != []
    requires Fed(After(Begin(g, panel, first, second), ops[..|ops| - 1]).input, g.input,
                 DesktopCalls(g, panel, first, second, ops[..|ops| - 1]))
    ensures var w := After(Begin(g, panel, first, second), ops[..|ops| - 1]);
            var before, after := DesktopCalls(g, panel, first, second, ops[..|ops| - 1]), DesktopCalls(g, panel, first, second, ops);
      && Fed(After(Begin(g, panel, first, second), ops).input, g.input, after)
      && OpCounted(InputRuns.CountAll(before), InputRuns.CountAll(after), w, ops[|ops| - 1])
  {
    var w := After(Begin(g, panel, first, second), ops[..|ops| - 1]);
    CallsGrow(g, panel, first, second, ops);
    OpFeeds(w, ops[|ops| - 1], g.input, DesktopCalls(g, panel, first, second, ops[..|ops| - 1]));
  }

  // ---- What the kernel makes of it ----

  function KernelOf(w: World): InputStream.Kernel { InputStream.KRun(InputStream.NO_DEVICE, w.input.log) }

  lemma KernelCounts(w: World, g: Input.Device, calls: Calls)
    requires Fed(w.input, g, calls)
    ensures var k, r := KernelOf(w), InputRuns.CountAll(calls);
      && k.open == r.open && (k.open ==> k.width == r.width && k.height == r.height && k.touch == r.touch && k.relative == r.relative)
      && InputRuns.StreamGood(k) && (r.pointersInRange ==> k.inRange)
  {
    InputRuns.RunsAgree(g, calls);
  }

  /** No stuck keys, for a whole desktop: whatever turns, resizes and restarts come between, a held
      code belongs to a keysym whose last key operation was a down, or to a button of the device's
      mask; the pointer buttons are exactly those of that mask; and with all of them up nothing is
      held. */
  lemma DesktopHasNoStuckKeys(g: Garbage, panel: Panel, first: StartOutcome, second: StartOutcome, ops: seq<Op>)
    requires ValidPanel(panel)
    ensures var w0 := Begin(g, panel, first, second);
            var k, mask := KernelOf(After(w0, ops)), DeviceMask(w0, ops);
      && k.held == InputRuns.HeldCodes(DesktopCalls(g, panel, first, second, ops))
      && (forall c | c in k.held ::
            || (exists keysym :: keysym in DownKeys(ops) && c in KeyTranslation.Persistent(keysym))
            || c in InputRuns.MaskCodes(k.touch, mask))
      && (k.open ==> Buttons(k) == ButtonsOf(k, mask))
      && (DownKeys(ops) == {} && InputRuns.NoButtons(mask) ==> k.held == {})
  {
    var w0, calls := Begin(g, panel, first, second), DesktopCalls(g, panel, first, second, ops);
    DesktopFeedsInput(g, panel, first, second, ops);
    KernelCounts(After(w0, ops), g.input, calls);
    InputRuns.HeldExactly(g.input, calls);
    InputRuns.NoStuckKeys(g.input, calls);
    HeldIsJustified(KernelOf(After(w0, ops)), InputRuns.CountAll(calls), DeviceMask(w0, ops));
    KernelButtons(After(w0, ops), g.input, calls);
  }

  /** Justified by the device's mask. */
  lemma HeldIsJustified(k: InputStream.Kernel, r: InputRuns.Recount, mask: int)
    requires k.open == r.open && (k.open ==> k.touch == r.touch && r.mask == mask) && (!k.open ==> k.held == {})
    requires forall c | c in k.held :: InputRuns.Justified(r, c)
    requires r.down == {} && InputRuns.NoButtons(r.mask) ==> k.held == {}
    ensures forall c | c in k.held ::
      || (exists keysym :: keysym in r.down && c in KeyTranslation.Persistent(keysym))
      || c in InputRuns.MaskCodes(k.touch, mask)
    ensures r.down == {} && InputRuns.NoButtons(mask) ==> k.held == {}
  {}

  /** The pointer buttons that are held, of those that the keyboard cannot write. */
  function Buttons(k: InputStream.Kernel): set<int> { k.held * InputStream.PointerButtons(k.touch) }

  /** Those of them that a mask presses. */
  function ButtonsOf(k: InputStream.Kernel, mask: int): set<int> {
    InputRuns.MaskCodes(k.touch, mask) * InputStream.PointerButtons(k.touch)
  }

  lemma KernelButtons(w: World, g: Input.Device, calls: Calls)
    requires Fed(w.input, g, calls)
    ensures KernelOf(w).open ==> Buttons(KernelOf(w)) == ButtonsOf(KernelOf(w), InputRuns.CountAll(calls).mask)
  {
    KernelCounts(w, g, calls);
    if KernelOf(w).open { InputRuns.ButtonsAreHistoryFree(g, calls); }
  }

  /** When a pointer report takes effect, after every run that leaves the device open: the buttons
      are those of its mask if and only if its position is inside the rectangle, or it presses what
      the device's mask presses already. */
  lemma PointerTakesEffect(g: Garbage, panel: Panel, first: StartOutcome, second: StartOutcome, ops: seq<Op>, op: Op)
    requires ValidPanel(panel) && op.Pointer?
    ensures var w0 := Begin(g, panel, first, second);
            var w := After(w0, ops);
            var k, k' := KernelOf(w), KernelOf(Apply(w, op));
      k.open ==>
        (Buttons(k') == ButtonsOf(k', op.mask) <==>
         || (w.desk.rect.left <= op.x <= w.desk.rect.right && w.desk.rect.top <= op.y <= w.desk.rect.bottom)
         || ButtonsOf(k, op.mask) == ButtonsOf(k, DeviceMask(w0, ops)))
  {
    var w, calls := After(Begin(g, panel, first, second), ops), DesktopCalls(g, panel, first, second, ops);
    DesktopFeedsInput(g, panel, first, second, ops);
    OpFeeds(w, op, g.input, calls);
    KernelCounts(w, g.input, calls);
    KernelCounts(Apply(w, op), g.input, calls + OpCalls(w, op));
    KernelButtons(Apply(w, op), g.input, calls + OpCalls(w, op));
  }

  // ---- Touch screen or mouse ----

  /** The kind that the last setDisplayProps asked for. */
  function AskedKind(initial: Kind, ops: seq<Op>): Kind {
    if ops == [] then initial
    else
      match ops[|ops| - 1]
      case Props(touch, relative) => Kind(touch, relative)
      case _ => AskedKind(initial, ops[..|ops| - 1])
  }

  predicate Restarts(w: World, op: Op)
    requires Sound(w)
  {
    (op.Refresh? || op.Resize?) && OpCalls(w, op) != []
  }

  /** The kind that was asked for when the device was last restarted. */
  function DeviceKind(initial: Kind, w: World, ops: seq<Op>): Kind
    requires Good(w)
  {
    if ops == [] then initial
    else if Restarts(After(w, ops[..|ops| - 1]), ops[|ops| - 1]) then AskedKind(initial, ops[..|ops| - 1])
    else DeviceKind(initial, w, ops[..|ops| - 1])
  }

  lemma ApplyReadsKind(w: World, op: Op)
    requires Good(w)
    ensures KindOf(Apply(w, op).desk) == if op.Props? then Kind(op.touch, op.relative) else KindOf(w.desk)
  {
    match op
    case Refresh(panel, first, second) => if ValidPanel(panel) { ReadingKeepsKind(Read(w, panel), first, second); }
    case Resize(_, _, _, _) =>
    case Props(_, _) =>
    case Key(_, _) =>
    case Pointer(_, _, _, _, _) =>
  }

  lemma ReadingKeepsKind(w: World, first: StartOutcome, second: StartOutcome)
    requires Sound(w)
    ensures KindOf(SetDisplayInfo(w, false, first, second).desk) == KindOf(w.desk)
  {
    var turned := SetBufferRotation(w, IsDisplayRotated(w.desk.rotation), first);
    var source := Oriented(w.desk.mode, w.desk.rotation);
    RotationKeepsMode(w, IsDisplayRotated(w.desk.rotation), first);
    if source != turned.pixels.source { UpdateKeepsKind(turned.(pixels := turned.pixels.(source := source)), second); }
  }

  lemma UpdateKeepsKind(w: World, outcome: StartOutcome)
    requires Sound(w)
    ensures KindOf(Geometry.UpdateBufferSize(w, true, outcome).desk) == KindOf(w.desk)
  {}

  lemma {:induction false} DeskHasAskedKind(w: World, ops: seq<Op>)
    requires Good(w)
    ensures KindOf(After(w, ops).desk) == AskedKind(KindOf(w.desk), ops)
  {
    if ops != [] {
      DeskHasAskedKind(w, ops[..|ops| - 1]);
      ApplyReadsKind(After(w, ops[..|ops| - 1]), ops[|ops| - 1]);
    }
  }

  lemma BeginKeepsKind(g: Garbage, panel: Panel, first: StartOutcome, second: StartOutcome)
    requires ValidPanel(panel)
    ensures KindOf(Begin(g, panel, first, second).desk) == Kind(g.touch, g.relative)
  {
    var u := Unstarted(g);
    ForcedUpdate(u.(desk := u.desk.(mode := PanelMode(panel), rotation := PanelRotation(panel))), first, second);
  }

  lemma {:induction false} CountsHaveKind(g: Garbage, panel: Panel, first: StartOutcome, second: StartOutcome, ops: seq<Op>)
    requires ValidPanel(panel)
    ensures var r := InputRuns.CountAll(DesktopCalls(g, panel, first, second, ops));
      r.open ==> Kind(r.touch, r.relative) == DeviceKind(Kind(g.touch, g.relative), Begin(g, panel, first, second), ops)
  {
    var w0 := Begin(g, panel, first, second);
    BeginFeeds(g, panel, first, second);
    if ops == [] {
      var begun := DisplayInfoCalls(Read(Unstarted(g), panel), true, first, second);
      assert begun + [] == begun;
    } else {
      CountsHaveKind(g, panel, first, second, ops[..|ops| - 1]);
      DesktopFeedsInput(g, panel, first, second, ops[..|ops| - 1]);
      NextOpFeeds(g, panel, first, second, ops);
      BeginKeepsKind(g, panel, first, second);
      DeskHasAskedKind(w0, ops[..|ops| - 1]);
    }
  }

  /** Which flag is which, over every run: the open device is a touch screen exactly if that is what
      setDisplayProps had asked for when it was last restarted, and relative likewise. */
  lemma DeviceIsOfKind(g: Garbage, panel: Panel, first: StartOutcome, second: StartOutcome, ops: seq<Op>)
    requires ValidPanel(panel)
    ensures var w0 := Begin(g, panel, first, second);
            var k, kind := KernelOf(After(w0, ops)), DeviceKind(Kind(g.touch, g.relative), w0, ops);
      k.open ==> (k.touch <==> kind.touch) && (k.relative <==> kind.relative)
  {
    DesktopFeedsInput(g, panel, first, second, ops);
    CountsHaveKind(g, panel, first, second, ops);
    KernelCounts(After(Begin(g, panel, first, second), ops), g.input, DesktopCalls(g, panel, first, second, ops));
  }

  // ---- The axes ----

  /** The axes of the open device are those of the mode. */
  predicate AxesFit(k: InputStream.Kernel, mode: Size) {
    k.open ==> k.width == mode.width && k.height == mode.height
  }

  /** A reading restarts the device whenever it brings a new mode and keeps up with it, and not at
      all when it does not keep up. */
  lemma RestartsWhenKeepingUp(w: World, panel: Panel, first: StartOutcome, second: StartOutcome)
    requires Good(w) && Synced(w) && ValidPanel(panel)
    ensures !KeepsUp(w, panel) ==> OpCalls(w, Refresh(panel, first, second)) == []
    ensures KeepsUp(w, panel) && PanelMode(panel) != w.desk.mode ==> OpCalls(w, Refresh(panel, first, second)) != []
  {}

  /** The axes keep up exactly when the virtual display does. */
  lemma OpKeepsAxes(w: World, op: Op, g: Input.Device, calls: Calls)
    requires Good(w) && Synced(w) && Fed(w.input, g, calls) && AxesFit(KernelOf(w), w.desk.mode)
    ensures var fits := AxesFit(KernelOf(Apply(w, op)), Apply(w, op).desk.mode);
      && ((op.Refresh? ==> KeepsUp(w, op.panel)) ==> fits)
      && (op.Refresh? && KernelOf(w).open && !KeepsUp(w, op.panel) ==> !fits)
  {
    OpFeeds(w, op, g, calls);
    KernelCounts(w, g, calls);
    KernelCounts(Apply(w, op), g, calls + OpCalls(w, op));
    ApplyReadsMode(w, op);
    if op.Refresh? && ValidPanel(op.panel) { RestartsWhenKeepingUp(w, op.panel, op.first, op.second); }
  }

  predicate AlwaysOpen(w: World, ops: seq<Op>)
    requires Good(w)
  {
    KernelOf(After(w, ops)).open && (ops != [] ==> AlwaysOpen(w, ops[..|ops| - 1]))
  }

  predicate AlwaysFit(w: World, ops: seq<Op>)
    requires Good(w)
  {
    AxesFit(KernelOf(After(w, ops)), After(w, ops).desk.mode) && (ops != [] ==> AlwaysFit(w, ops[..|ops| - 1]))
  }

  /** Over every run: if each panel reading keeps up, the registered axes are the mode after each
      operation, and while the device stays open that is the only way. */
  lemma {:induction false} AxesFollowPanel(g: Garbage, panel: Panel, first: StartOutcome, second: StartOutcome, ops: seq<Op>)
    requires ValidPanel(panel)
    ensures var w0 := Begin(g, panel, first, second);
      && (PanelFollowed(w0, ops) ==> AlwaysFit(w0, ops))
      && (AlwaysOpen(w0, ops) && AlwaysFit(w0, ops) ==> PanelFollowed(w0, ops))
  {
    var w0 := Begin(g, panel, first, second);
    BeginEstablishes(g, panel, first, second);
    if ops == [] {
      BeginFeeds(g, panel, first, second);
      KernelCounts(w0, g.input, DisplayInfoCalls(Read(Unstarted(g), panel), true, first, second));
    } else {
      var before, op := ops[..|ops| - 1], ops[|ops| - 1];
      AxesFollowPanel(g, panel, first, second, before);
      SyncedWhenFollowed(w0, before);
      DesktopFeedsInput(g, panel, first, second, before);
      if PanelFollowed(w0, before) {
        OpKeepsAxes(After(w0, before), op, g.input, DesktopCalls(g, panel, first, second, before));
      }
    }
  }

  // ---- Pointers inside the axes ----

  /** RFB coordinates are 16-bit, and so are the modes of the panel. */
  predicate Small(s: Size) { s.width <= 65535 && s.height <= 65535 }

  predicate SmallOp(op: Op) {
    && (op.Refresh? && ValidPanel(op.panel) ==> Small(PanelMode(op.panel)))
    && (op.Pointer? ==> op.x <= 65535 && op.y <= 65535)
  }

  predicate HasRoom(r: Rect) { r.Width() > 0 && r.Height() > 0 }

  /** The rectangle has room exactly if the view of the virtual display has. */
  lemma RoomInView(w: World)
    requires Shown(w)
    ensures HasRoom(w.desk.rect) <==> ViewHasRoom(w.desk.display.value.view, w.desk.display.value.source)
  {
    RectHasRoom(w.desk.display.value.view, w.desk.display.value.source);
  }

  /** No accepted pointer meets an empty rectangle: the window had room for the source. */
  predicate PointersHaveRoom(w: World, ops: seq<Op>)
    requires Good(w)
  {
    ops != [] ==>
      var before, op := After(w, ops[..|ops| - 1]), ops[|ops| - 1];
      && PointersHaveRoom(w, ops[..|ops| - 1])
      && (op.Pointer? && InRect(before.desk.rect, op.x, op.y) && before.desk.display.Some? ==>
            ViewHasRoom(before.desk.display.value.view, before.desk.display.value.source))
  }

  lemma LandsInAxis(pos: int, view: nat, near: nat, extent: nat, mode: nat, undefined: nat)
    requires 0 < extent <= view && pos <= 65535 && mode <= 65535
    requires near == (view - extent) / 2 && near <= pos <= near + extent
    ensures 0 <= ToInt32(CastAxis(pos, view, extent, mode, undefined)) == Mapped(pos - near, extent, mode) <= mode
  {
    MappingIsSafe(pos, view, near, extent, mode);
    SmallStaysPut(MapAxis(pos, view, extent, mode));
  }

  lemma SmallStaysPut(u: nat)
    requires u <= 65535
    ensures ToInt32(u) == u
  {}

  /** A pointer that passes the rectangle test reaches the input device as its offset in the
      rectangle scaled to the mode, and inside the mode. */
  lemma PointerLandsInMode(w: World, mask: int, x: int, y: int, castX: nat, castY: nat)
    requires Shown(w) && Small(w.desk.mode) && x <= 65535 && y <= 65535
    requires InRect(w.desk.rect, x, y) && HasRoom(w.desk.rect)
    ensures var r, mode := w.desk.rect, w.desk.mode;
            var px, py := Mapped(x - r.left, r.Width(), mode.width), Mapped(y - r.top, r.Height(), mode.height);
      && px <= mode.width <= 65535 && py <= mode.height <= 65535
      && PointerCall(w, mask, x, y, castX, castY) == Input.Call.PointerEvent(mask, px, py)
  {
    var r := w.desk.rect;
    FitsInside(w.pixels.size, w.desk.display.value.source);
    LandsInAxis(x, w.pixels.size.width, r.left, r.Width(), w.desk.mode.width, castX);
    LandsInAxis(y, w.pixels.size.height, r.top, r.Height(), w.desk.mode.height, castY);
  }

  /** The pointers that reach the device: exactly those on or inside the rectangle, edges included,
      whose near corner is reported as (0, 0) and far corner as the whole mode. */
  lemma CornersAreReported(w: World, mask: int, x: int, y: int, castX: nat, castY: nat)
    requires Good(w) && Shown(w) && Small(w.desk.mode) && HasRoom(w.desk.rect)
    requires w.desk.rect.right <= 65535 && w.desk.rect.bottom <= 65535
    ensures var r := w.desk.rect;
      && PointerEvent(w, mask, r.left, r.top, castX, castY).input == Input.Step(w.input, Input.Call.PointerEvent(mask, 0, 0))
      && PointerEvent(w, mask, r.right, r.bottom, castX, castY).input
         == Input.Step(w.input, Input.Call.PointerEvent(mask, w.desk.mode.width, w.desk.mode.height))
      && (x < r.left || x > r.right || y < r.top || y > r.bottom ==> PointerEvent(w, mask, x, y, castX, castY) == w)
  {
    var r := w.desk.rect;
    PointerLandsInMode(w, mask, r.left, r.top, castX, castY);
    PointerLandsInMode(w, mask, r.right, r.bottom, castX, castY);
    MappingEnds(r.Width(), w.desk.mode.width);
    MappingEnds(r.Height(), w.desk.mode.height);
  }

  /** So every pointer of the rectangle stays inside given axes if and only if the mode does: the
      far corner reaches the mode itself. */
  lemma PointersFitAxes(w: World, width: int, height: int)
    requires Shown(w) && Small(w.desk.mode) && HasRoom(w.desk.rect)
    requires w.desk.rect.right <= 65535 && w.desk.rect.bottom <= 65535
    ensures (forall x, y | InRect(w.desk.rect, x, y) ::
               PointerCall(w, 0, x, y, 0, 0).x <= width && PointerCall(w, 0, x, y, 0, 0).y <= height)
       <==> w.desk.mode.width <= width && w.desk.mode.height <= height
  {
    var r := w.desk.rect;
    forall x, y | InRect(r, x, y)
      ensures PointerCall(w, 0, x, y, 0, 0).x <= w.desk.mode.width && PointerCall(w, 0, x, y, 0, 0).y <= w.desk.mode.height
    {
      PointerLandsInMode(w, 0, x, y, 0, 0);
    }
    assert InRect(r, r.right, r.bottom);
    PointerLandsInMode(w, 0, r.right, r.bottom, 0, 0);
    MappingEnds(r.Width(), w.desk.mode.width);
    MappingEnds(r.Height(), w.desk.mode.height);
  }

  predicate InRange(r: InputRuns.Recount, mode: Size) {
    r.pointersInRange && (r.open ==> r.width == mode.width && r.height == mode.height)
  }

  lemma OpStaysInRange(w: World, op: Op, r: InputRuns.Recount, r': InputRuns.Recount)
    requires Good(w) && Shown(w) && Small(w.desk.mode) && SmallOp(op) && OpCounted(r, r', w, op)
    requires InRange(r, w.desk.mode) && (op.Pointer? && InRect(w.desk.rect, op.x, op.y) ==> HasRoom(w.desk.rect))
    ensures r'.pointersInRange
  {
    if op.Pointer? && InRect(w.desk.rect, op.x, op.y) {
      PointerLandsInMode(w, op.mask, op.x, op.y, op.castX, op.castY);
    }
  }

  lemma {:induction false} ModeStaysSmall(w: World, ops: seq<Op>)
    requires Good(w) && Small(w.desk.mode) && forall op | op in ops :: SmallOp(op)
    ensures Small(After(w, ops).desk.mode)
  {
    if ops != [] {
      assert ops[|ops| - 1] in ops;
      ModeStaysSmall(w, ops[..|ops| - 1]);
      ApplyReadsMode(After(w, ops[..|ops| - 1]), ops[|ops| - 1]);
    }
  }

  lemma {:induction false} PointersStayInRange(g: Garbage, panel: Panel, first: StartOutcome, second: StartOutcome, ops: seq<Op>)
    requires ValidPanel(panel) && Small(PanelMode(panel)) && forall op | op in ops :: SmallOp(op)
    requires PanelFollowed(Begin(g, panel, first, second), ops) && PointersHaveRoom(Begin(g, panel, first, second), ops)
    ensures InputRuns.CountAll(DesktopCalls(g, panel, first, second, ops)).pointersInRange
  {
    var w0 := Begin(g, panel, first, second);
    BeginEstablishes(g, panel, first, second);
    if ops == [] {
      BeginFeeds(g, panel, first, second);
      DesktopFeedsInput(g, panel, first, second, ops);
      assert DesktopCalls(g, panel, first, second, []) == DisplayInfoCalls(Read(Unstarted(g), panel), true, first, second);
    } else {
      var before, op := ops[..|ops| - 1], ops[|ops| - 1];
      assert op in ops;
      var calls := DesktopCalls(g, panel, first, second, before);
      PointersStayInRange(g, panel, first, second, before);
      DesktopFeedsInput(g, panel, first, second, before);
      NextOpFeeds(g, panel, first, second, ops);
      AxesFollowPanel(g, panel, first, second, before);
      KernelCounts(After(w0, before), g.input, calls);
      DesktopIsCoherent(g, panel, first, second, before);
      RoomInView(After(w0, before));
      ModeStaysSmall(w0, before);
      OpStaysInRange(After(w0, before), op, InputRuns.CountAll(calls), InputRuns.CountAll(DesktopCalls(g, panel, first, second, ops)));
    }
  }

  /** What the kernel sees of a desktop, over every run: closed frames of one key each, registered
      codes and alternating buttons; and, as long as the panel is followed, positions inside the
      registered axes, whatever sizes the clients ask for. */
  lemma KernelSeesGoodStream(g: Garbage, panel: Panel, first: StartOutcome, second: StartOutcome, ops: seq<Op>)
    requires ValidPanel(panel)
    ensures var w0 := Begin(g, panel, first, second);
            var k := KernelOf(After(w0, ops));
      && k.registered && k.oneKeyPerFrame && k.alternating && !k.frameOpen
      && (&& Small(PanelMode(panel)) && (forall op | op in ops :: SmallOp(op))
          && PanelFollowed(w0, ops) && PointersHaveRoom(w0, ops)
          ==> k.inRange)
  {
    var w0 := Begin(g, panel, first, second);
    DesktopFeedsInput(g, panel, first, second, ops);
    KernelCounts(After(w0, ops), g.input, DesktopCalls(g, panel, first, second, ops));
    if Small(PanelMode(panel)) && (forall op | op in ops :: SmallOp(op)) && PanelFollowed(w0, ops) && PointersHaveRoom(w0, ops) {
      PointersStayInRange(g, panel, first, second, ops);
    }
  }

  // ---- Where the conditions fail ----

  /** The desktop as it starts on an unrotated panel of this mode. */
  predicate Untouched(w: World, mode: Size) {
    && w.pixels == ExactPixels(mode, false) && w.desk.rect.Width() == mode.width
    && w.desk.mode == mode && w.desk.rotation == Rotation0
  }

  lemma StartsUntouched(g: Garbage, mode: Size) returns (w0: World)
    requires mode.Positive()
    ensures w0 == Begin(g, Mirror(mode, Rotation0), Input.Created, Input.Created) && Untouched(w0, mode)
  {
    w0 := Begin(g, Mirror(mode, Rotation0), Input.Created, Input.Created);
    BeginIsExact(g, Mirror(mode, Rotation0), Input.Created, Input.Created);
    ExactDivision(mode.height, mode.width, mode.height, mode.width);
  }

  const THOUSAND := Size(1000, 1000)
  const ONE_MORE := Refresh(Mirror(Size(1001, 1001), Rotation0), Input.Created, Input.Created)
  const MOUSE := Props(false, false)
  const SHRINK := Resize(true, 10, 10, Input.Created)

  /** The small window of a panel of 1000x1000. */
  predicate SmallWindow(w: World) {
    && w.pixels == Pixels(Size(10, 10), false, Size(10, 10), Size(1000, 1000), Ratio(10, 1000), Ratio(10, 1000))
    && w.desk.mode == Size(1000, 1000) && w.desk.rotation == Rotation0
    && w.desk.display == Some(Display(Size(10, 10), Size(1000, 1000))) && w.desk.rect == Rect(0, 0, 10, 10)
  }

  /** The device is a mouse that has just been started on these axes. */
  predicate FreshMouse(w: World, width: int, height: int) {
    var k := KernelOf(w);
    && w.input.ready && w.input.fdOpen && !w.input.touch && !w.input.relative
    && !w.input.left && !w.input.middle && !w.input.right
    && k.open && k.width == width && k.height == height
  }

  lemma ShrinkStartsMouse(w: World)
    requires Good(w) && Untouched(w, THOUSAND) && !w.desk.touch && !w.desk.relative
    ensures SmallWindow(Apply(w, SHRINK)) && FreshMouse(Apply(w, SHRINK), 1000, 1000)
  {
    ExactDivision(10, 1000, 1000, 10);
    var stopped := Input.Step(w.input, Input.Call.Stop);
    InputRuns.AppendOne(stopped.log, InputStream.Create(false, false, 1000, 1000));
  }

  /** The window of the new source has the old size, so nothing is rebuilt. */
  lemma GrowthGoesUnnoticed(w: World)
    requires Good(w) && SmallWindow(w)
    ensures var w' := Apply(w, ONE_MORE);
      && !KeepsUp(w, ONE_MORE.panel)
      && w'.desk == w.desk.(mode := Size(1001, 1001)) && w'.input == w.input && w'.pixels.size == w.pixels.size
      && Synced(w) && !Synced(w')
  {
    assert ScaleDown(1001, 10, 1000) == 10;
  }

  /** What a mouse with no button down writes for no button and for the left one. */
  lemma MouseOutput(d: Input.Device, px: int, py: int)
    requires !d.touch && !d.relative && !d.left && !d.middle && !d.right
    ensures var at := [InputStream.Abs(InputStream.ABS_X, px), InputStream.Abs(InputStream.ABS_Y, py)];
      && Input.PointerOutput(d, 0, px, py) == [at[0], at[1], InputStream.Syn]
      && Input.PointerOutput(d, 1, px, py)
         == (at + [InputStream.Syn] + at) + [InputStream.Key(Keymap.BTN_LEFT, 1), InputStream.Syn]
  {}

  lemma MouseMoves(w: World, px: Input.Coord, py: Input.Coord, width: int, height: int)
    requires FreshMouse(w, width, height)
    ensures var k := InputStream.KRun(InputStream.NO_DEVICE, Input.Step(w.input, Input.Call.PointerEvent(0, px, py)).log);
      k.absX == px && (k.inRange ==> px <= width)
  {
    var moved := [InputStream.Abs(InputStream.ABS_X, px), InputStream.Abs(InputStream.ABS_Y, py), InputStream.Syn];
    MouseOutput(w.input, px, py);
    InputStream.KRunAppend(InputStream.NO_DEVICE, w.input.log, moved);
    InputStream.KRun3(KernelOf(w), moved[0], moved[1], moved[2]);
  }

  /** The far corner of the window is now off the axes. */
  lemma CornerIsOutOfRange(w: World, castX: nat, castY: nat)
    requires Good(w) && w.pixels.size == Size(10, 10) && w.desk.rect == Rect(0, 0, 10, 10) && w.desk.mode == Size(1001, 1001)
    requires FreshMouse(w, 1000, 1000)
    ensures var k := KernelOf(Apply(w, Pointer(0, 10, 10, castX, castY))); k.absX == 1001 && !k.inRange
  {
    var call := PointerCall(w, 0, 10, 10, castX, castY);
    LandsInAxis(10, 10, 0, 10, 1001, castX);
    MappingEnds(10, 1001);
    MouseMoves(w, call.x, call.y, 1000, 1000);
  }

  lemma OutgrownFrom(w0: World, castX: nat, castY: nat)
    requires Good(w0) && Untouched(w0, THOUSAND)
    ensures var w := After(w0, [MOUSE, SHRINK]);
            var w' := Apply(w, ONE_MORE);
            var k := KernelOf(Apply(w', Pointer(0, 10, 10, castX, castY)));
      && Synced(w) && !Synced(w') && w'.desk.mode == Size(1001, 1001)
      && w'.desk.display == w.desk.display && w'.input == w.input
      && KernelOf(w').open && KernelOf(w').width == 1000
      && k.absX == 1001 && !k.inRange
  {
    TwoOps(w0, MOUSE, SHRINK);
    ShrinkStartsMouse(Apply(w0, MOUSE));
    var w := Apply(Apply(w0, MOUSE), SHRINK);
    GrowthGoesUnnoticed(w);
    CornerIsOutOfRange(Apply(w, ONE_MORE), castX, castY);
  }

  /** A change of mode that the window size hides: display and input device stay behind, and a
      pointer in the corner of the window is reported outside the registered axes. */
  lemma PanelCanOutgrowAxes(g: Garbage, castX: nat, castY: nat) returns (w0: World)
    ensures w0 == Begin(g, Mirror(THOUSAND, Rotation0), Input.Created, Input.Created)
    ensures var w := After(w0, [MOUSE, SHRINK]);
            var w' := Apply(w, ONE_MORE);
            var k := KernelOf(Apply(w', Pointer(0, 10, 10, castX, castY)));
      && Synced(w) && !Synced(w') && w'.desk.mode == Size(1001, 1001)
      && w'.desk.display == w.desk.display && w'.input == w.input
      && KernelOf(w').open && KernelOf(w').width == 1000
      && k.absX == 1001 && !k.inRange
  {
    w0 := StartsUntouched(g, THOUSAND);
    OutgrownFrom(w0, castX, castY);
  }

  const TALL := Size(1080, 2400)
  const FLATTEN := Resize(true, 1000, 1, Input.Created)

  lemma FlattenedHasNoWidth(w: World)
    requires Good(w) && Untouched(w, TALL)
    ensures Apply(w, FLATTEN).desk.rect == Rect(500, 0, 500, 1)
  {
    assert ScaleDown(1, 1080, 2400) == 0;
  }

  /** A pointer can meet an empty rectangle: in a window one pixel high a tall panel has no width,
      its middle column still passes the test, and what is reported is what the cast yields. */
  lemma PointerMeetsEmptyRectangle(g: Garbage, castX: nat, castY: nat) returns (w0: World)
    ensures w0 == Begin(g, Mirror(TALL, Rotation0), Input.Created, Input.Created)
    ensures var w := Apply(w0, FLATTEN);
      && InRect(w.desk.rect, 500, 0) && !HasRoom(w.desk.rect)
      && PointerCall(w, 0, 500, 0, castX, castY).x == ToInt32(castX)
  {
    w0 := StartsUntouched(g, TALL);
    FlattenedHasNoWidth(w0);
  }

  const HUNDRED := Size(100, 100)
  const WIDE := Resize(true, 200, 100, Input.Created)

  lemma WideStartsMouse(w: World)
    requires Good(w) && Untouched(w, HUNDRED) && !w.desk.touch && !w.desk.relative
    ensures var w' := Apply(w, WIDE); w'.desk.rect == Rect(50, 0, 150, 100) && FreshMouse(w', 100, 100)
  {
    assert ScaleDown(100, 100, 100) == 100;
    var stopped := Input.Step(w.input, Input.Call.Stop);
    InputRuns.AppendOne(stopped.log, InputStream.Create(false, false, 100, 100));
  }

  lemma PressHoldsLeft(w: World, px: Input.Coord, py: Input.Coord, width: int, height: int)
    requires FreshMouse(w, width, height)
    ensures Keymap.BTN_LEFT in InputStream.KRun(InputStream.NO_DEVICE, Input.Step(w.input, Input.Call.PointerEvent(1, px, py)).log).held
  {
    var at := [InputStream.Abs(InputStream.ABS_X, px), InputStream.Abs(InputStream.ABS_Y, py)];
    var moved := at + [InputStream.Syn] + at;
    var press := [InputStream.Key(Keymap.BTN_LEFT, 1), InputStream.Syn];
    MouseOutput(w.input, px, py);
    InputStream.KRunAppend(InputStream.NO_DEVICE, w.input.log, moved + press);
    InputStream.KRunAppend(KernelOf(w), moved, press);
    InputStream.KRun2(InputStream.KRun(KernelOf(w), moved), press[0], press[1]);
  }

  const PRESS_INSIDE := Pointer(1, 60, 50, 0, 0)
  const RELEASE_OUTSIDE := Pointer(0, 10, 50, 0, 0)

  lemma LostIn(w: World)
    requires Good(w) && w.desk.rect == Rect(50, 0, 150, 100) && FreshMouse(w, 100, 100)
    ensures var w' := Apply(w, PRESS_INSIDE);
      Apply(w', RELEASE_OUTSIDE) == w' && Keymap.BTN_LEFT in KernelOf(w').held
  {
    var call := PointerCall(w, 1, 60, 50, 0, 0);
    PressHoldsLeft(w, call.x, call.y, 100, 100);
  }

  lemma LostFrom(w0: World)
    requires Good(w0) && Untouched(w0, HUNDRED)
    ensures var w := Apply(After(w0, [MOUSE, WIDE]), PRESS_INSIDE);
      Apply(w, RELEASE_OUTSIDE) == w && Keymap.BTN_LEFT in KernelOf(w).held
  {
    TwoOps(w0, MOUSE, WIDE);
    WideStartsMouse(Apply(w0, MOUSE));
    LostIn(Apply(Apply(w0, MOUSE), WIDE));
  }

  /** The mask that counts is the last accepted one: a button that is pressed inside the desktop
      rectangle and released over its margin stays held, although the client has let it go. */
  lemma ReleaseInMarginIsLost(g: Garbage) returns (w0: World)
    ensures w0 == Begin(g, Mirror(HUNDRED, Rotation0), Input.Created, Input.Created)
    ensures var w := Apply(After(w0, [MOUSE, WIDE]), PRESS_INSIDE);
      Apply(w, RELEASE_OUTSIDE) == w && Keymap.BTN_LEFT in KernelOf(w).held
  {
    w0 := StartsUntouched(g, HUNDRED);
    LostFrom(w0);
  }
}
