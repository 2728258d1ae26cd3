/** AndroidPixelBuffer, VirtualDisplay and the geometry half of AndroidDesktop as the objects of
    the source: they call each other back in the middle of an update, and each method is proved
    to do what the function of the same name in `Geometry` does to the values. */
module GeometryObjects {
  import opened Letterbox
  import opened Input
  import opened Geometry
  import opened Options
  import G = Geometry

  class VirtualDisplay {
    const mWidth: nat
    const mHeight: nat
    const mSourceRect: Size

    constructor (mode: Size, rotation: Rotation, width: nat, height: nat)
      ensures mWidth == width && mHeight == height
      ensures mSourceRect == Oriented(mode, rotation) == Turned(mode, Turns(rotation))
    {
      OrientedIsTurned(mode, rotation);
      mWidth, mHeight := width, height;
      mSourceRect := if rotation == Rotation0 || rotation == Rotation180 then mode else Size(mode.height, mode.width);
    }

    function Value(): Display { Display(Size(mWidth, mHeight), mSourceRect) }

    method GetDisplayRect() returns (r: Rect)
      requires mSourceRect.Positive()
      ensures r == DisplayRect(Size(mWidth, mHeight), mSourceRect)
    {
      FitsInside(Size(mWidth, mHeight), mSourceRect);
      var outWidth, outHeight;
      if mWidth <= ScaleDown(mHeight, mSourceRect.width, mSourceRect.height) {
        outWidth := mWidth;
        outHeight := ScaleDown(mWidth, mSourceRect.height, mSourceRect.width);
      } else {
        outHeight := mHeight;
        outWidth := ScaleDown(mHeight, mSourceRect.width, mSourceRect.height);
      }
      var offX, offY := (mWidth - outWidth) / 2, (mHeight - outHeight) / 2;
      r := Rect(offX, offY, offX + outWidth, offY + outHeight);
    }
  }

  class AndroidPixelBuffer {
    var width: nat
    var height: nat
    var mRotated: bool
    var mClientWidth: nat
    var mClientHeight: nat
    var mSourceWidth: nat
    var mSourceHeight: nat
    var mScaleX: Ratio
    var mScaleY: Ratio
    const mListener: AndroidDesktop

    function Value(): Pixels
      reads this
    {
      Pixels(Size(width, height), mRotated, Size(mClientWidth, mClientHeight), Size(mSourceWidth, mSourceHeight), mScaleX, mScaleY)
    }

    /** The whole world as seen from here. */
    function Snapshot(): World
      reads this, mListener, mListener.input
    {
      World(Value(), mListener.Value(), mListener.input.Snapshot())
    }

    ghost predicate Linked()
      reads this, mListener
    {
      mListener.pixels == this
    }

    /** Client and source sizes start uninitialised. */
    constructor (listener: AndroidDesktop, client: Size, source: Size)
      ensures mListener == listener
      ensures Value() == Pixels(Size(0, 0), false, client, source, Ratio(1, 1), Ratio(1, 1))
    {
      mListener := listener;
      width, height := 0, 0;
      mRotated := false;
      mClientWidth, mClientHeight := client.width, client.height;
      mSourceWidth, mSourceHeight := source.width, source.height;
      mScaleX, mScaleY := Ratio(1, 1), Ratio(1, 1);
    }

    method SetBufferRotation(rotated: bool, outcome: StartOutcome)
      requires Linked() && mListener.mode.Positive()
      modifies this, mListener, mListener.input
      ensures Linked() && Snapshot() == G.SetBufferRotation(old(Snapshot()), rotated, outcome)
    {
      if rotated != mRotated {
        mRotated := rotated;
        width, height := height, width;
        mScaleX, mScaleY := mScaleY, mScaleX;
        mListener.OnBufferDimensionsChanged(outcome);
      }
    }

    method UpdateBufferSize(fromDisplay: bool, outcome: StartOutcome)
      requires Linked() && Sound(Snapshot())
      modifies this, mListener, mListener.input
      ensures Linked() && Snapshot() == G.UpdateBufferSize(old(Snapshot()), fromDisplay, outcome)
    {
      var w, h;
      if fromDisplay {
        w := ScaleDown(mSourceWidth, mScaleX.num, mScaleX.den);
        h := ScaleDown(mSourceHeight, mScaleY.num, mScaleY.den);
        mClientWidth := w;
        mClientHeight := h;
      } else {
        w := mClientWidth;
        h := mClientHeight;
      }
      mScaleX := Ratio(mClientWidth, mSourceWidth);
      mScaleY := Ratio(mClientHeight, mSourceHeight);
      if w == width && h == height { return; }
      width, height := w, h;
      mListener.OnBufferDimensionsChanged(outcome);
    }

    method SetWindowSize(w: nat, h: nat, outcome: StartOutcome)
      requires Linked() && Sound(Snapshot())
      modifies this, mListener, mListener.input
      ensures Linked() && Snapshot() == G.SetWindowSize(old(Snapshot()), Size(w, h), outcome)
    {
      if mClientWidth != w || mClientHeight != h {
        mClientWidth := w;
        mClientHeight := h;
        UpdateBufferSize(false, outcome);
      }
    }

    /** The second half of setDisplayInfo. */
    method AdoptSource(w: nat, h: nat, force: bool, outcome: StartOutcome)
      requires Linked() && Sound(Snapshot())
      modifies this, mListener, mListener.input
      ensures Linked()
      ensures Snapshot() == if Size(w, h) != old(Value()).source || force
                            then G.UpdateBufferSize(old(Snapshot()).(pixels := old(Value()).(source := Size(w, h))), true, outcome)
                            else old(Snapshot())
    {
      if w != mSourceWidth || h != mSourceHeight || force {
        mSourceWidth := w;
        mSourceHeight := h;
        UpdateBufferSize(true, outcome);
      }
    }

    method SetDisplayInfo(force: bool, first: StartOutcome, second: StartOutcome)
      requires Linked() && Sound(Snapshot())
      modifies this, mListener, mListener.input
      ensures Linked() && Snapshot() == G.SetDisplayInfo(old(Snapshot()), force, first, second)
    {
      var mode, rotation := mListener.mode, mListener.rotation;
      var rotated := IsDisplayRotated(rotation);
      SetBufferRotation(rotated, first);
      AdoptSource(if rotated then mode.height else mode.width, if rotated then mode.width else mode.height, force, second);
    }
  }

  class AndroidDesktop {
    var mode: Size
    var rotation: Rotation
    var mVirtualDisplay: VirtualDisplay?
    var mDisplayRect: Rect
    var touch: bool
    var relative: bool
    var pixels: AndroidPixelBuffer?
    const input: InputDevice

    function Value(): Desk
      reads this
    {
      Desk(mode, rotation, if mVirtualDisplay == null then None else Some(mVirtualDisplay.Value()),
           mDisplayRect, touch, relative)
    }

    ghost predicate Linked()
      reads this
    {
      pixels != null && pixels.mListener == this
    }

    constructor (inputDevice: InputDevice)
      ensures input == inputDevice && pixels == null && mVirtualDisplay == null
    {
      input := inputDevice;
      mode, rotation := Size(0, 0), Rotation0;
      mVirtualDisplay, pixels := null, null;
      mDisplayRect := Rect(0, 0, 0, 0);
      touch, relative := false, false;
    }

    method OnBufferDimensionsChanged(outcome: StartOutcome)
      requires Linked() && mode.Positive()
      modifies this, input
      ensures Linked() && pixels == old(pixels)
      ensures World(pixels.Value(), Value(), input.Snapshot())
           == DimensionsChanged(World(old(pixels.Value()), old(Value()), old(input.Snapshot())), outcome)
    {
      mVirtualDisplay := new VirtualDisplay(mode, rotation, pixels.width, pixels.height);
      mDisplayRect := mVirtualDisplay.GetDisplayRect();
      ReconfigureIsStopStart(input.Snapshot(), mode.width, mode.height, touch, relative, outcome);
      input.Reconfigure(mode.width, mode.height, touch, relative, outcome);
    }

    method UpdateDisplayInfo(panel: Panel, force: bool, first: StartOutcome, second: StartOutcome) returns (ok: bool)
      requires Linked() && pixels.mScaleX.den > 0 && pixels.mScaleY.den > 0
      modifies this, pixels, input
      ensures Linked() && pixels == old(pixels)
      ensures ok == ValidPanel(panel)
      ensures pixels.Snapshot() == G.UpdateDisplayInfo(old(pixels.Snapshot()), panel, force, first, second)
    {
      if !ValidPanel(panel) { return false; }
      mode := PanelMode(panel);
      rotation := PanelRotation(panel);
      pixels.SetDisplayInfo(force, first, second);
      return true;
    }

    method SetScreenLayout(mirrors: bool, width: int, height: int, outcome: StartOutcome) returns (result: LayoutResult)
      requires Linked() && Sound(pixels.Snapshot())
      modifies this, pixels, input
      ensures Linked() && pixels == old(pixels)
      ensures (pixels.Snapshot(), result) == G.SetScreenLayout(old(pixels.Snapshot()), mirrors, width, height, outcome)
    {
      if !mirrors { return Invalid; }
      if width == mDisplayRect.Width() && height == mDisplayRect.Height() { return Invalid; }
      if width > 0 && height > 0 {
        pixels.SetWindowSize(width, height, outcome);
        return Success;
      }
      return Invalid;
    }

    method PointerEvent(mask: int, x: int, y: int, castX: nat, castY: nat)
      requires Linked()
      modifies input
      ensures pixels.Snapshot() == G.PointerEvent(old(pixels.Snapshot()), mask, x, y, castX, castY)
    {
      if x < mDisplayRect.left || x > mDisplayRect.right || y < mDisplayRect.top || y > mDisplayRect.bottom { return; }
      var px := CastAxis(x, pixels.width, mDisplayRect.Width(), mode.width, castX);
      var py := CastAxis(y, pixels.height, mDisplayRect.Height(), mode.height, castY);
      input.PointerEvent(mask, ToInt32(px), ToInt32(py));
    }
  }

  lemma ReconfigureIsStopStart(d: Device, width: int, height: int, touch: bool, relative: bool, outcome: StartOutcome)
    ensures Run(d, [Call.Stop, Call.Start(width, height, touch, relative, outcome)])
         == Step(Step(d, Call.Stop), Call.Start(width, height, touch, relative, outcome))
  {
    var calls := [Call.Stop, Call.Start(width, height, touch, relative, outcome)];
    assert calls[..1] == [Call.Stop] && [Call.Stop][..0] == [];
    assert Run(d, [Call.Stop]) == Step(d, Call.Stop);
  }
}
