/** The display geometry of AndroidPixelBuffer, VirtualDisplay and AndroidDesktop as values. A
    `World` is the state of all three objects and of the input device behind them; each
    function is one operation on it. */
module Geometry {
  import opened Letterbox
  import opened Input
  import opened Options

  datatype Rotation = Rotation0 | Rotation90 | Rotation180 | Rotation270

  /** An exact scale factor. */
  datatype Ratio = Ratio(num: nat, den: nat)

  datatype Pixels = Pixels(
    size: Size, rotated: bool, client: Size, source: Size, scaleX: Ratio, scaleY: Ratio)

  datatype Display = Display(view: Size, source: Size)

  datatype Desk = Desk(
    mode: Size, rotation: Rotation, display: Option<Display>, rect: Rect, touch: bool, relative: bool)

  datatype World = World(pixels: Pixels, desk: Desk, input: Device)

  predicate IsDisplayRotated(r: Rotation) { r != Rotation0 && r != Rotation180 }

  function Oriented(mode: Size, r: Rotation): Size {
    if IsDisplayRotated(r) then mode.Transposed() else mode
  }

  // ---- Orientation as quarter turns ----

  function Turns(r: Rotation): nat {
    match r case Rotation0 => 0 case Rotation90 => 1 case Rotation180 => 2 case Rotation270 => 3
  }

  /** The mode after n quarter turns. */
  function Turned(mode: Size, n: nat): Size {
    if n == 0 then mode else Turned(mode, n - 1).Transposed()
  }

  /** A display is rotated, and its source transposed, after an odd number of quarter turns. */
  lemma OrientedIsTurned(mode: Size, r: Rotation)
    ensures Oriented(mode, r) == Turned(mode, Turns(r))
    ensures IsDisplayRotated(r) <==> Turns(r) % 2 == 1
  {
    assert Turned(mode, 1) == mode.Transposed();
    assert Turned(mode, 2) == mode;
    assert Turned(mode, 3) == mode.Transposed();
  }

  // ---- Where mode and rotation come from ----

  /** Layer 0 mirrors the panel, whose mode is positive; otherwise the values that
      setDisplayProps stored are used, if they make sense. */
  datatype Panel =
    | Mirror(mode: Size, rotation: Rotation)
    | Virtual(width: int, height: int, degrees: int)

  predicate ValidPanel(p: Panel) {
    match p
    case Mirror(mode, _) => mode.Positive()
    case Virtual(w, h, degrees) => w > 0 && h > 0 && degrees > -1
  }

  function PanelMode(p: Panel): Size
    requires ValidPanel(p)
  {
    match p case Mirror(mode, _) => mode case Virtual(w, h, _) => Size(w, h)
  }

  function PanelRotation(p: Panel): Rotation {
    match p
    case Mirror(_, r) => r
    case Virtual(_, _, degrees) =>
      if degrees == 270 then Rotation270 else if degrees == 180 then Rotation180
      else if degrees == 90 then Rotation90 else Rotation0
  }

  /** setDisplayProps gives the rotation in degrees; what is no quarter turn counts as none. */
  lemma DegreesAreTurns(width: int, height: int, degrees: int)
    ensures ValidPanel(Virtual(width, height, degrees)) <==> width > 0 && height > 0 && degrees >= 0
    ensures degrees in {0, 90, 180, 270} ==> Turns(PanelRotation(Virtual(width, height, degrees))) * 90 == degrees
    ensures degrees !in {0, 90, 180, 270} ==> Turns(PanelRotation(Virtual(width, height, degrees))) == 0
  {}

  // ---- The operations on values ----

  /** What the divisions of updateBufferSize and of the letterbox need. */
  predicate Sound(w: World) {
    w.pixels.scaleX.den > 0 && w.pixels.scaleY.den > 0 && w.desk.mode.Positive()
  }

  function DimensionsChanged(w: World, outcome: StartOutcome): World
    requires w.desk.mode.Positive()
  {
    var d := w.desk;
    var display := Display(w.pixels.size, Oriented(d.mode, d.rotation));
    w.(desk := d.(display := Some(display), rect := DisplayRect(display.view, display.source)),
       input := Step(Step(w.input, Call.Stop), Call.Start(d.mode.width, d.mode.height, d.touch, d.relative, outcome)))
  }

  function SetBufferRotation(w: World, rotated: bool, outcome: StartOutcome): World
    requires w.desk.mode.Positive()
  {
    var p := w.pixels;
    if rotated == p.rotated then w
    else DimensionsChanged(
      w.(pixels := p.(rotated := rotated, size := p.size.Transposed(), scaleX := p.scaleY, scaleY := p.scaleX)), outcome)
  }

  /** The client size that a source of the given size gets. */
  function ScaledSource(p: Pixels, source: Size): Size
    requires p.scaleX.den > 0 && p.scaleY.den > 0
  {
    Size(ScaleDown(source.width, p.scaleX.num, p.scaleX.den), ScaleDown(source.height, p.scaleY.num, p.scaleY.den))
  }

  function UpdateBufferSize(w: World, fromDisplay: bool, outcome: StartOutcome): World
    requires Sound(w)
  {
    var p := w.pixels;
    var client := if fromDisplay then ScaledSource(p, p.source) else p.client;
    var scaled := p.(client := client,
                     scaleX := Ratio(client.width, p.source.width), scaleY := Ratio(client.height, p.source.height));
    if client == p.size then w.(pixels := scaled)
    else DimensionsChanged(w.(pixels := scaled.(size := client)), outcome)
  }

  function SetWindowSize(w: World, request: Size, outcome: StartOutcome): World
    requires Sound(w)
  {
    if w.pixels.client == request then w
    else UpdateBufferSize(w.(pixels := w.pixels.(client := request)), false, outcome)
  }

  /** `first` and `second` answer the two restarts of the input device that one call can cause. */
  function SetDisplayInfo(w: World, force: bool, first: StartOutcome, second: StartOutcome): World
    requires Sound(w)
  {
    var rotated := IsDisplayRotated(w.desk.rotation);
    var turned := SetBufferRotation(w, rotated, first);
    var source := Oriented(w.desk.mode, w.desk.rotation);
    if source != turned.pixels.source || force
    then UpdateBufferSize(turned.(pixels := turned.pixels.(source := source)), true, second)
    else turned
  }

  function UpdateDisplayInfo(w: World, panel: Panel, force: bool, first: StartOutcome, second: StartOutcome): World
    requires w.pixels.scaleX.den > 0 && w.pixels.scaleY.den > 0
  {
    if !ValidPanel(panel) then w
    else SetDisplayInfo(w.(desk := w.desk.(mode := PanelMode(panel), rotation := PanelRotation(panel))), force, first, second)
  }

  datatype LayoutResult = Success | Invalid

  function SetScreenLayout(w: World, mirrors: bool, width: int, height: int, outcome: StartOutcome): (World, LayoutResult)
    requires Sound(w)
  {
    if !mirrors then (w, Invalid)
    else if width == w.desk.rect.Width() && height == w.desk.rect.Height() then (w, Invalid)
    else if width > 0 && height > 0 then (SetWindowSize(w, Size(width, height), outcome), Success)
    else (w, Invalid)
  }

  predicate InRect(r: Rect, x: int, y: int) {
    r.left <= x <= r.right && r.top <= y <= r.bottom
  }

  /** uint32_t to the int parameter of InputDevice::pointerEvent. */
  function ToInt32(u: nat): Coord { var v := u % TWO_32; if v < 0x8000_0000 then v else v - TWO_32 }

  /** `castX` and `castY` are what the casts of quotients by 0 yield. */
  function PointerEvent(w: World, mask: int, x: int, y: int, castX: nat, castY: nat): World {
    var r := w.desk.rect;
    if !InRect(r, x, y) then w
    else w.(input := Step(w.input, Call.PointerEvent(mask,
              ToInt32(CastAxis(x, w.pixels.size.width, r.Width(), w.desk.mode.width, castX)),
              ToInt32(CastAxis(y, w.pixels.size.height, r.Height(), w.desk.mode.height, castY)))))
  }
}
