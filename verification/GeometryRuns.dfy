/** Whole runs of the desktop: rotations, panel changes, window resizes, keys and pointers in
    any order, after the forced first update of AndroidDesktop::start. */
module GeometryRuns {
  import opened Letterbox
  import opened Geometry
  import opened Options
  import Input
  import InputRuns

  type StartOutcome = Input.StartOutcome

  datatype Op =
    | Refresh(panel: Panel, first: StartOutcome, second: StartOutcome)  // processFrames
    | Resize(mirrors: bool, width: int, height: int, outcome: StartOutcome)  // setScreenLayout
    | Props(touch: bool, relative: bool)  // setDisplayProps
    | Key(down: bool, keysym: int)
    | Pointer(mask: int, x: int, y: int, castX: nat, castY: nat)

  predicate Good(w: World) { Sound(w) && w.pixels.source.Positive() }

  /** The uninitialised or default members at construction. */
  datatype Garbage = Garbage(client: Size, source: Size, input: Input.Device, touch: bool, relative: bool)

  function Unstarted(g: Garbage): World {
    World(Pixels(Size(0, 0), false, g.client, g.source, Ratio(1, 1), Ratio(1, 1)),
          Desk(Size(0, 0), Rotation0, None, Rect(0, 0, 0, 0), g.touch, g.relative),
          InputRuns.Fresh(g.input))
  }

  /** AndroidDesktop::start. */
  function Begin(g: Garbage, panel: Panel, first: StartOutcome, second: StartOutcome): (w: World)
    requires ValidPanel(panel)
    ensures Good(w)
  {
    UpdateDisplayInfo(Unstarted(g), panel, true, first, second)
  }

  function Apply(w: World, op: Op): World
    requires Sound(w)
  {
    match op
    case Refresh(panel, first, second) => UpdateDisplayInfo(w, panel, false, first, second)
    case Resize(mirrors, width, height, outcome) => SetScreenLayout(w, mirrors, width, height, outcome).0
    case Props(touch, relative) => w.(desk := w.desk.(touch := touch, relative := relative))
    case Key(down, keysym) => w.(input := Input.Step(w.input, Input.Call.KeyEvent(down, keysym)))
    case Pointer(mask, x, y, castX, castY) => PointerEvent(w, mask, x, y, castX, castY)
  }

  function After(w: World, ops: seq<Op>): (r: World)
    requires Good(w)
    ensures Good(r)
  {
    if ops == [] then w
    else
      ApplyKeepsGood(After(w, ops[..|ops| - 1]), ops[|ops| - 1]);
      Apply(After(w, ops[..|ops| - 1]), ops[|ops| - 1])
  }

  lemma ApplyKeepsGood(w: World, op: Op)
    requires Good(w)
    ensures Good(Apply(w, op))
  {}

  // ---- Coherence of desktop, virtual display and pixel buffer ----

  /** The virtual display has the buffer's size and the desktop rectangle is its letterbox. */
  predicate Shown(w: World) {
    && w.desk.display.Some?
    && w.desk.display.value.view == w.pixels.size
    && w.desk.display.value.source.Positive()
    && w.desk.rect == DisplayRect(w.desk.display.value.view, w.desk.display.value.source)
  }

  lemma UpdateShows(w: World, fromDisplay: bool, outcome: StartOutcome)
    requires Good(w) && Shown(w)
    ensures Shown(Geometry.UpdateBufferSize(w, fromDisplay, outcome))
  {}

  /** SetDisplayInfo goes through the listener firing inside SetBufferRotation, before the
      source is updated; the display it builds is already the new one. */
  lemma RefreshShows(w: World, force: bool, first: StartOutcome, second: StartOutcome)
    requires Good(w) && Shown(w)
    ensures Shown(SetDisplayInfo(w, force, first, second))
  {
    var turned := SetBufferRotation(w, IsDisplayRotated(w.desk.rotation), first);
    var source := Oriented(w.desk.mode, w.desk.rotation);
    if source != turned.pixels.source || force {
      UpdateShows(turned.(pixels := turned.pixels.(source := source)), true, second);
    }
  }

  lemma ApplyShows(w: World, op: Op)
    requires Good(w) && Shown(w)
    ensures Shown(Apply(w, op))
  {
    match op
    case Refresh(panel, first, second) =>
      if ValidPanel(panel) {
        RefreshShows(w.(desk := w.desk.(mode := PanelMode(panel), rotation := PanelRotation(panel))), false, first, second);
      }
    case Resize(_, width, height, outcome) =>
      if width > 0 && height > 0 {
        UpdateShows(w.(pixels := w.pixels.(client := Size(width, height))), false, outcome);
      }
    case Props(_, _) =>
    case Key(_, _) =>
    case Pointer(_, _, _, _, _) =>
  }

  /** The virtual display's source is the buffer's oriented source, and both are the mode's. */
  predicate Synced(w: World) {
    && w.desk.display.Some?
    && w.desk.display.value.source == w.pixels.source == Oriented(w.desk.mode, w.desk.rotation)
    && w.pixels.rotated == IsDisplayRotated(w.desk.rotation)
  }

  /** Buffer and client agree and the scales are exactly client over source. */
  predicate Exact(p: Pixels) {
    && p.size == p.client
    && p.scaleX == Ratio(p.client.width, p.source.width) && p.scaleY == Ratio(p.client.height, p.source.height)
  }

  lemma UnitScale(source: Size)
    ensures ScaleDown(source.width, 1, 1) == source.width && ScaleDown(source.height, 1, 1) == source.height
  {
    ExactDivision(source.width, 1, 1, source.width);
    ExactDivision(source.height, 1, 1, source.height);
  }

  function ExactPixels(source: Size, rotated: bool): Pixels {
    Pixels(source, rotated, source, source, Ratio(source.width, source.width), Ratio(source.height, source.height))
  }

  lemma FirstUpdate(w: World, outcome: StartOutcome)
    requires Sound(w) && w.pixels.scaleX == w.pixels.scaleY == Ratio(1, 1)
    requires w.pixels.size == Size(0, 0) && w.pixels.source.Positive()
    ensures Geometry.UpdateBufferSize(w, true, outcome)
         == DimensionsChanged(w.(pixels := ExactPixels(w.pixels.source, w.pixels.rotated)), outcome)
  {
    UnitScale(w.pixels.source);
  }

  /** A forced update of a buffer that is still empty. */
  lemma ForcedUpdate(w: World, first: StartOutcome, second: StartOutcome)
    requires Sound(w) && w.pixels.scaleX == w.pixels.scaleY == Ratio(1, 1) && w.pixels.size == Size(0, 0)
    ensures var w' := SetDisplayInfo(w, true, first, second);
            var source := Oriented(w.desk.mode, w.desk.rotation);
      && w'.pixels == ExactPixels(source, IsDisplayRotated(w.desk.rotation))
      && w'.desk == w.desk.(display := Some(Display(source, source)), rect := DisplayRect(source, source))
  {
    var turned := SetBufferRotation(w, IsDisplayRotated(w.desk.rotation), first);
    FirstUpdate(turned.(pixels := turned.pixels.(source := Oriented(w.desk.mode, w.desk.rotation))), second);
  }

  /** The forced first update establishes everything. */
  lemma BeginEstablishes(g: Garbage, panel: Panel, first: StartOutcome, second: StartOutcome)
    requires ValidPanel(panel)
    ensures var w := Begin(g, panel, first, second);
      Good(w) && Shown(w) && Synced(w) && Exact(w.pixels) && w.desk.mode == PanelMode(panel)
  {
    var u := Unstarted(g);
    ForcedUpdate(u.(desk := u.desk.(mode := PanelMode(panel), rotation := PanelRotation(panel))), first, second);
  }

  /** Coherence over every run: the virtual display has the buffer's size, and the desktop
      rectangle is the letterbox of that virtual display, after each operation. */
  lemma {:induction false} DesktopIsCoherent(g: Garbage, panel: Panel, first: StartOutcome, second: StartOutcome, ops: seq<Op>)
    requires ValidPanel(panel)
    ensures Shown(After(Begin(g, panel, first, second), ops))
  {
    var w0 := Begin(g, panel, first, second);
    if ops == [] {
      BeginEstablishes(g, panel, first, second);
    } else {
      DesktopIsCoherent(g, panel, first, second, ops[..|ops| - 1]);
      ApplyShows(After(w0, ops[..|ops| - 1]), ops[|ops| - 1]);
    }
  }

  /** A panel reading after which the virtual display is rebuilt if it has to be: the mode is the
      old one, or the buffer turns, or the new source gives it another size. */
  predicate KeepsUp(w: World, panel: Panel)
    requires Sound(w)
  {
    ValidPanel(panel) ==>
      || PanelMode(panel) == w.desk.mode
      || IsDisplayRotated(PanelRotation(panel)) != w.pixels.rotated
      || ScaledSource(w.pixels, Oriented(PanelMode(panel), PanelRotation(panel))) != w.pixels.size
  }

  /** Otherwise the virtual display goes on showing the old source. */
  lemma RefreshKeepsSync(w: World, panel: Panel, first: StartOutcome, second: StartOutcome)
    requires Good(w) && Synced(w)
    ensures Synced(Apply(w, Refresh(panel, first, second))) <==> KeepsUp(w, panel)
  {
    if ValidPanel(panel) {
      var v := w.(desk := w.desk.(mode := PanelMode(panel), rotation := PanelRotation(panel)));
      var source := Oriented(v.desk.mode, v.desk.rotation);
      if IsDisplayRotated(v.desk.rotation) != w.pixels.rotated {
        SourceSyncs(SetBufferRotation(v, !w.pixels.rotated, first), source, second);
      } else if source != w.pixels.source {
        SourceSyncs(v, source, second);
      }
    }
  }

  /** Adopting a source rebuilds the display if that changes the size; a display that is not
      rebuilt shows what it showed. */
  lemma SourceSyncs(w: World, source: Size, outcome: StartOutcome)
    requires Good(w) && source.Positive() && w.desk.display.Some?
    requires source == Oriented(w.desk.mode, w.desk.rotation) && w.pixels.rotated == IsDisplayRotated(w.desk.rotation)
    ensures Synced(Geometry.UpdateBufferSize(w.(pixels := w.pixels.(source := source)), true, outcome))
       <==> w.desk.display.value.source == source || ScaledSource(w.pixels, source) != w.pixels.size
  {}

  predicate PanelFollowed(w: World, ops: seq<Op>)
    requires Good(w)
  {
    ops != [] ==>
      && PanelFollowed(w, ops[..|ops| - 1])
      && (ops[|ops| - 1].Refresh? ==> KeepsUp(After(w, ops[..|ops| - 1]), ops[|ops| - 1].panel))
  }

  predicate AlwaysSynced(w: World, ops: seq<Op>)
    requires Good(w)
  {
    Synced(After(w, ops)) && (ops != [] ==> AlwaysSynced(w, ops[..|ops| - 1]))
  }

  /** Coherence of virtual display, pixel buffer and panel, over every run: they agree after each
      operation if and only if each panel reading of the run keeps up. */
  lemma {:induction false} SyncedWhenFollowed(w: World, ops: seq<Op>)
    requires Good(w) && Synced(w)
    ensures AlwaysSynced(w, ops) <==> PanelFollowed(w, ops)
  {
    if ops != [] {
      var before, op := ops[..|ops| - 1], ops[|ops| - 1];
      SyncedWhenFollowed(w, before);
      if PanelFollowed(w, before) {
        ApplySyncs(After(w, before), op);
      }
    }
  }

  lemma ApplySyncs(w: World, op: Op)
    requires Good(w) && Synced(w)
    ensures Synced(Apply(w, op)) <==> (op.Refresh? ==> KeepsUp(w, op.panel))
  {
    match op
    case Refresh(panel, first, second) => RefreshKeepsSync(w, panel, first, second);
    case Resize(mirrors, width, height, outcome) => ResizeKeepsSync(w, mirrors, width, height, outcome);
    case Props(_, _) =>
    case Key(_, _) =>
    case Pointer(_, _, _, _, _) =>
  }

  // ---- The source follows the panel's rotation ----

  /** The buffer's source is the mode after the rotation's quarter turns, and the buffer is turned
      after an odd number of them. */
  predicate SourceTurned(w: World) {
    && w.pixels.source == Turned(w.desk.mode, Turns(w.desk.rotation))
    && (w.pixels.rotated <==> Turns(w.desk.rotation) % 2 == 1)
  }

  lemma ReadingTurnsSource(w: World, force: bool, first: StartOutcome, second: StartOutcome)
    requires Sound(w)
    ensures var w' := SetDisplayInfo(w, force, first, second);
      SourceTurned(w') && w'.desk.mode == w.desk.mode && w'.desk.rotation == w.desk.rotation
  {
    ReadingOrientsSource(w, force, first, second);
    OrientedIsTurned(w.desk.mode, w.desk.rotation);
  }

  lemma ReadingOrientsSource(w: World, force: bool, first: StartOutcome, second: StartOutcome)
    requires Sound(w)
    ensures var w' := SetDisplayInfo(w, force, first, second);
      && w'.pixels.source == Oriented(w.desk.mode, w.desk.rotation)
      && w'.pixels.rotated == IsDisplayRotated(w.desk.rotation)
      && w'.desk.mode == w.desk.mode && w'.desk.rotation == w.desk.rotation
  {}

  /** What one operation makes of it: after a valid reading, the reading's own mode and rotation. */
  lemma OpTurnsSource(w: World, op: Op)
    requires Good(w)
    ensures op.Refresh? && ValidPanel(op.panel) ==>
      var w' := Apply(w, op);
      SourceTurned(w') && w'.desk.mode == PanelMode(op.panel) && w'.desk.rotation == PanelRotation(op.panel)
    ensures !(op.Refresh? && ValidPanel(op.panel)) ==>
      var w' := Apply(w, op);
      w'.pixels.source == w.pixels.source && w'.pixels.rotated == w.pixels.rotated
      && w'.desk.mode == w.desk.mode && w'.desk.rotation == w.desk.rotation
  {
    match op
    case Refresh(panel, first, second) =>
      if ValidPanel(panel) {
        ReadingTurnsSource(w.(desk := w.desk.(mode := PanelMode(panel), rotation := PanelRotation(panel))), false, first, second);
      }
    case Resize(_, _, _, _) =>
    case Props(_, _) =>
    case Key(_, _) =>
    case Pointer(_, _, _, _, _) =>
  }

  /** The last valid reading of a run, or the first one of all. */
  function LastPanel(panel: Panel, ops: seq<Op>): Panel {
    if ops == [] then panel
    else if ops[|ops| - 1].Refresh? && ValidPanel(ops[|ops| - 1].panel) then ops[|ops| - 1].panel
    else LastPanel(panel, ops[..|ops| - 1])
  }

  /** Over every run, whatever the modes and windows: the buffer's source is the mode of the last
      valid panel reading, turned by the quarter turns of its rotation. */
  lemma {:induction false} SourceFollowsRotation(g: Garbage, panel: Panel, first: StartOutcome, second: StartOutcome, ops: seq<Op>)
    requires ValidPanel(panel)
    ensures var w, last := After(Begin(g, panel, first, second), ops), LastPanel(panel, ops);
      && ValidPanel(last) && w.desk.mode == PanelMode(last) && w.desk.rotation == PanelRotation(last)
      && w.pixels.source == Turned(PanelMode(last), Turns(PanelRotation(last)))
      && (w.pixels.rotated <==> Turns(PanelRotation(last)) % 2 == 1)
  {
    if ops == [] {
      var u := Unstarted(g);
      ReadingTurnsSource(u.(desk := u.desk.(mode := PanelMode(panel), rotation := PanelRotation(panel))), true, first, second);
    } else {
      SourceFollowsRotation(g, panel, first, second, ops[..|ops| - 1]);
      OpTurnsSource(After(Begin(g, panel, first, second), ops[..|ops| - 1]), ops[|ops| - 1]);
    }
  }

  // ---- When a resize is accepted ----

  /** A client resize is reported as done exactly if the display is mirrored, the request differs
      from what is shown, and it is not empty; every other request leaves everything as it is. A
      resize of a virtual display is never reported as done. */
  lemma ResizeSucceedsWhen(w: World, mirrors: bool, width: int, height: int, outcome: StartOutcome)
    requires Good(w)
    ensures var (w', result) := SetScreenLayout(w, mirrors, width, height, outcome);
            var shown := w.desk.rect;
      && (result == Success <==>
            && mirrors && width > 0 && height > 0
            && !(shown.left + width == shown.right && shown.top + height == shown.bottom))
      && (result != Success ==> w' == w)
      && (!mirrors ==> result != Success)
  {}

  // ---- A fixed panel ----

  /** No panel reading of the run reports another mode. */
  predicate FixedPanel(ops: seq<Op>, mode: Size) {
    forall op | op in ops && op.Refresh? && ValidPanel(op.panel) :: PanelMode(op.panel) == mode
  }

  lemma ApplyReadsMode(w: World, op: Op)
    requires Good(w)
    ensures Apply(w, op).desk.mode == if op.Refresh? && ValidPanel(op.panel) then PanelMode(op.panel) else w.desk.mode
  {
    match op
    case Refresh(panel, first, second) =>
      if ValidPanel(panel) {
        DisplayInfoKeepsMode(w.(desk := w.desk.(mode := PanelMode(panel), rotation := PanelRotation(panel))), false, first, second);
      }
    case Resize(_, _, _, _) =>
    case Props(_, _) =>
    case Key(_, _) =>
    case Pointer(_, _, _, _, _) =>
  }

  lemma DisplayInfoKeepsMode(w: World, force: bool, first: StartOutcome, second: StartOutcome)
    requires Sound(w)
    ensures SetDisplayInfo(w, force, first, second).desk.mode == w.desk.mode
  {}

  /** A fixed panel is always followed, square or not: virtual display, pixel buffer and panel
      agree after every operation. */
  lemma {:induction false} FixedPanelIsFollowed(w: World, ops: seq<Op>)
    requires Good(w) && FixedPanel(ops, w.desk.mode)
    ensures PanelFollowed(w, ops) && After(w, ops).desk.mode == w.desk.mode
    ensures Synced(w) ==> Synced(After(w, ops))
  {
    if ops != [] {
      var before, op := ops[..|ops| - 1], ops[|ops| - 1];
      assert op in ops && FixedPanel(before, w.desk.mode);
      FixedPanelIsFollowed(w, before);
      ApplyReadsMode(After(w, before), op);
    }
    if Synced(w) { SyncedWhenFollowed(w, ops); }
  }

  function TurnedPixels(p: Pixels): Pixels {
    Pixels(p.size.Transposed(), !p.rotated, p.client.Transposed(), p.source.Transposed(), p.scaleY, p.scaleX)
  }

  lemma ExactScalesGiveClient(p: Pixels)
    requires Exact(p) && p.source.Positive()
    ensures ScaledSource(p, p.source) == p.client
    ensures ScaledSource(p.(scaleX := p.scaleY, scaleY := p.scaleX), p.source.Transposed()) == p.client.Transposed()
  {
    ExactDivision(p.source.width, p.client.width, p.source.width, p.client.width);
    ExactDivision(p.source.height, p.client.height, p.source.height, p.client.height);
  }

  /** On a non-square panel of fixed mode, a reading that changes the rotation class transposes
      size, client, source and scales, and any other reading changes nothing. */
  lemma RefreshTurns(w: World, panel: Panel, first: StartOutcome, second: StartOutcome)
    requires Good(w) && Synced(w) && Exact(w.pixels)
    requires ValidPanel(panel) && PanelMode(panel) == w.desk.mode && w.desk.mode.width != w.desk.mode.height
    ensures var w' := Apply(w, Refresh(panel, first, second));
      && w'.pixels == (if IsDisplayRotated(PanelRotation(panel)) != w.pixels.rotated then TurnedPixels(w.pixels) else w.pixels)
      && Synced(w') && w'.desk.mode == w.desk.mode
  {
    ExactScalesGiveClient(w.pixels);
  }

  lemma ResizeKeepsExact(w: World, mirrors: bool, width: int, height: int, outcome: StartOutcome)
    requires Good(w) && Exact(w.pixels)
    ensures Exact(Apply(w, Resize(mirrors, width, height, outcome)).pixels)
  {}

  lemma ResizeKeepsSync(w: World, mirrors: bool, width: int, height: int, outcome: StartOutcome)
    requires Good(w) && Synced(w)
    ensures var w' := Apply(w, Resize(mirrors, width, height, outcome));
      Synced(w') && w'.desk.mode == w.desk.mode && w'.desk.rotation == w.desk.rotation
      && w'.pixels.rotated == w.pixels.rotated
  {}

  /** Fixed non-square panel: over any run, the buffer has the client's size and the scales are
      exactly client over source on both axes. */
  lemma {:induction false} FixedPanelIsExact(w: World, ops: seq<Op>)
    requires Good(w) && Synced(w) && Exact(w.pixels)
    requires FixedPanel(ops, w.desk.mode) && w.desk.mode.width != w.desk.mode.height
    ensures Exact(After(w, ops).pixels)
  {
    if ops != [] {
      var before, op := ops[..|ops| - 1], ops[|ops| - 1];
      assert op in ops && FixedPanel(before, w.desk.mode);
      FixedPanelIsExact(w, before);
      FixedPanelIsFollowed(w, before);
      var v := After(w, before);
      match op
      case Refresh(panel, first, second) => if ValidPanel(panel) { RefreshTurns(v, panel, first, second); }
      case Resize(mirrors, width, height, outcome) => ResizeKeepsExact(v, mirrors, width, height, outcome);
      case Props(_, _) =>
      case Key(_, _) =>
      case Pointer(_, _, _, _, _) =>
    }
  }

  /** The rotation class that the panel readings of a run end on. */
  function LastClass(ops: seq<Op>, initially: bool): bool {
    if ops == [] then initially
    else
      var op := ops[|ops| - 1];
      if op.Refresh? && ValidPanel(op.panel) then IsDisplayRotated(PanelRotation(op.panel))
      else LastClass(ops[..|ops| - 1], initially)
  }

  /** Fixed non-square panel, no resize: the buffer depends only on the final rotation class, so
      after any even number of class changes it is what it was. */
  lemma {:induction false} TurningBackIsIdentity(w: World, ops: seq<Op>)
    requires Good(w) && Synced(w) && Exact(w.pixels)
    requires FixedPanel(ops, w.desk.mode) && w.desk.mode.width != w.desk.mode.height
    requires forall op | op in ops :: !op.Resize?
    ensures After(w, ops).pixels
         == if LastClass(ops, w.pixels.rotated) == w.pixels.rotated then w.pixels else TurnedPixels(w.pixels)
  {
    if ops != [] {
      var before, op := ops[..|ops| - 1], ops[|ops| - 1];
      assert FixedPanel(before, w.desk.mode);
      TurningBackIsIdentity(w, before);
      FixedPanelIsExact(w, before);
      FixedPanelIsFollowed(w, before);
      assert op in ops;
      if op.Refresh? && ValidPanel(op.panel) {
        RefreshTurns(After(w, before), op.panel, op.first, op.second);
      }
    }
  }

  // ---- Any panel: client size or its transpose ----

  /** Whether an odd number of turns has left the oriented source as it was since the buffer size
      was last worked out. */
  predicate Skewed(w: World, ops: seq<Op>)
    requires Good(w)
    decreases ops
  {
    if ops == [] then false
    else
      var v, op := After(w, ops[..|ops| - 1]), ops[|ops| - 1];
      var skewed := Skewed(w, ops[..|ops| - 1]);
      match op
      case Refresh(panel, _, _) =>
        if !ValidPanel(panel) then skewed
        else if Oriented(PanelMode(panel), PanelRotation(panel)) != v.pixels.source then false
        else skewed != (IsDisplayRotated(PanelRotation(panel)) != v.pixels.rotated)
      case Resize(mirrors, width, height, _) =>
        skewed && (!Accepted(v, mirrors, width, height) || v.pixels.client == Size(width, height))
      case _ => skewed
  }

  /** setScreenLayout gets past its checks. */
  predicate Accepted(w: World, mirrors: bool, width: int, height: int) {
    mirrors && !(width == w.desk.rect.Width() && height == w.desk.rect.Height()) && width > 0 && height > 0
  }

  predicate SizeIsClient(p: Pixels, skewed: bool) {
    p.size == if skewed then p.client.Transposed() else p.client
  }

  lemma RefreshSize(w: World, panel: Panel, first: StartOutcome, second: StartOutcome, skewed: bool)
    requires Good(w) && ValidPanel(panel) && SizeIsClient(w.pixels, skewed)
    ensures var moved := Oriented(PanelMode(panel), PanelRotation(panel)) != w.pixels.source;
            var turned := IsDisplayRotated(PanelRotation(panel)) != w.pixels.rotated;
      SizeIsClient(Apply(w, Refresh(panel, first, second)).pixels, !moved && skewed != turned)
  {}

  lemma ResizeSize(w: World, mirrors: bool, width: int, height: int, outcome: StartOutcome, skewed: bool)
    requires Good(w) && SizeIsClient(w.pixels, skewed)
    ensures SizeIsClient(Apply(w, Resize(mirrors, width, height, outcome)).pixels,
              skewed && (!Accepted(w, mirrors, width, height) || w.pixels.client == Size(width, height)))
  {}

  /** Over any run of modes, rotations and window sizes the buffer has the client's size or its
      transpose, and the count of silent turns says which. */
  lemma {:induction false} BufferIsClientOrTranspose(w: World, ops: seq<Op>)
    requires Good(w) && w.pixels.size == w.pixels.client
    ensures SizeIsClient(After(w, ops).pixels, Skewed(w, ops))
  {
    if ops != [] {
      var before, op := ops[..|ops| - 1], ops[|ops| - 1];
      BufferIsClientOrTranspose(w, before);
      var v := After(w, before);
      match op
      case Refresh(panel, first, second) => if ValidPanel(panel) { RefreshSize(v, panel, first, second, Skewed(w, before)); }
      case Resize(mirrors, width, height, outcome) => ResizeSize(v, mirrors, width, height, outcome, Skewed(w, before));
      case Props(_, _) =>
      case Key(_, _) =>
      case Pointer(_, _, _, _, _) =>
    }
  }

  /** A resize that reports success leaves the buffer at the requested size, except exactly when
      the request repeats the client size, is not square, and the buffer is skewed. */
  lemma SuccessfulResizeIsHonoured(w: World, ops: seq<Op>, width: int, height: int, outcome: StartOutcome)
    requires Good(w) && w.pixels.size == w.pixels.client
    requires SetScreenLayout(After(w, ops), true, width, height, outcome).1 == Success
    ensures SetScreenLayout(After(w, ops), true, width, height, outcome).0.pixels.size == Size(width, height)
        <==> !(Skewed(w, ops) && After(w, ops).pixels.client == Size(width, height) && width != height)
  {
    BufferIsClientOrTranspose(w, ops);
  }

  // ---- A resize that is reported as done and is not ----

  const SQUARE := Size(100, 100)
  const ASKED := Size(200, 100)
  const WIDEN := Resize(true, 200, 100, Input.Created)
  const TURN := Refresh(Mirror(SQUARE, Rotation90), Input.Created, Input.Created)

  lemma Widened(w: World)
    requires Good(w) && w.pixels == ExactPixels(SQUARE, false) && w.desk.rect.Width() == 100
    ensures Apply(w, WIDEN).pixels == Pixels(ASKED, false, ASKED, SQUARE, Ratio(200, 100), Ratio(100, 100))
  {}

  lemma TurnedSilently(w: World)
    requires Good(w) && w.pixels == Pixels(ASKED, false, ASKED, SQUARE, Ratio(200, 100), Ratio(100, 100))
    ensures var w' := Apply(w, TURN);
      && w'.pixels.size == Size(100, 200) && w'.pixels.client == ASKED
      && w'.desk.rect.Width() == 100
  {
    ExactDivision(200, 100, 100, 200);
    ExactDivision(100, 100, 100, 100);
  }

  /** From any world of an untouched square panel: widen the window, turn the display, and ask
      for the same window again. */
  lemma IgnoredFrom(w0: World)
    requires Good(w0) && w0.pixels == ExactPixels(SQUARE, false) && w0.desk.rect.Width() == 100
    ensures var (w, result) := SetScreenLayout(After(w0, [WIDEN, TURN]), true, 200, 100, Input.Created);
            result == Success && w.pixels.size == Size(100, 200)
  {
    TwoOps(w0, WIDEN, TURN);
    Widened(w0);
    TurnedSilently(Apply(w0, WIDEN));
    RepeatIsIgnored(Apply(Apply(w0, WIDEN), TURN));
  }

  /** Such a world is where every square panel starts. */
  lemma ResizeCanBeIgnored(g: Garbage) returns (w0: World)
    ensures w0 == Begin(g, Mirror(SQUARE, Rotation0), Input.Created, Input.Created)
    ensures var (w, result) := SetScreenLayout(After(w0, [WIDEN, TURN]), true, 200, 100, Input.Created);
            result == Success && w.pixels.size == Size(100, 200)
  {
    w0 := SquareStart(g);
    IgnoredFrom(w0);
  }

  lemma SquareStart(g: Garbage) returns (w0: World)
    ensures w0 == Begin(g, Mirror(SQUARE, Rotation0), Input.Created, Input.Created)
    ensures Good(w0) && w0.pixels == ExactPixels(SQUARE, false) && w0.desk.rect.Width() == 100
  {
    w0 := Begin(g, Mirror(SQUARE, Rotation0), Input.Created, Input.Created);
    BeginIsExact(g, Mirror(SQUARE, Rotation0), Input.Created, Input.Created);
    ExactDivision(100, 100, 100, 100);
  }

  lemma RepeatIsIgnored(w: World)
    requires Good(w) && w.pixels.client == ASKED && w.desk.rect.Width() == 100
    ensures SetScreenLayout(w, true, 200, 100, Input.Created) == (w, Success)
  {}

  lemma TwoOps(w: World, a: Op, b: Op)
    requires Good(w)
    ensures After(w, [a, b]) == Apply(Apply(w, a), b)
  {
    assert [a][..0] == [] && [a, b][..1] == [a];
    assert After(w, []) == w;
    assert After(w, [a]) == Apply(w, a);
  }

  lemma BeginIsExact(g: Garbage, panel: Panel, first: StartOutcome, second: StartOutcome)
    requires ValidPanel(panel)
    ensures var w, source := Begin(g, panel, first, second), Oriented(PanelMode(panel), PanelRotation(panel));
      && w.pixels == ExactPixels(source, IsDisplayRotated(PanelRotation(panel)))
      && w.desk.rect == DisplayRect(source, source)
      && w.desk.mode == PanelMode(panel) && w.desk.rotation == PanelRotation(panel)
  {
    var u := Unstarted(g);
    ForcedUpdate(u.(desk := u.desk.(mode := PanelMode(panel), rotation := PanelRotation(panel))), first, second);
  }
}
