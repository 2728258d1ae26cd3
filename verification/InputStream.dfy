/** The stream that InputDevice writes to /dev/uinput, and an independent reader of it:
    what a kernel input device, fed that stream, ends up holding and reporting. */
module InputStream {
  import opened Keymap

  const REL_X := 0
  const REL_Y := 1
  const REL_WHEEL := 8
  const ABS_X := 0
  const ABS_Y := 1

  /** Create and Destroy are the uinput ioctls that make and remove the device;
      the other entries are the input events written to it, Syn being SYN_REPORT. */
  datatype Entry =
    | Create(touch: bool, relative: bool, width: int, height: int)
    | Destroy
    | Syn
    | Key(code: int, value: int)
    | Rel(code: int, value: int)
    | Abs(code: int, value: int)

  /** One key going down or up. */
  datatype Transition = Transition(code: int, down: bool)

  /** What doKeyboardEvent writes for one transition. */
  function Frame(t: Transition): seq<Entry> {
    [Syn, Key(t.code, if t.down then 1 else 0), Syn]
  }

  function Frames(ts: seq<Transition>): seq<Entry> {
    if ts == [] then [] else Frame(ts[0]) + Frames(ts[1..])
  }

  lemma FramesOne(t: Transition)
    ensures Frames([t]) == Frame(t)
  {
    assert [t][1..] == [];
    assert Frames([]) == [];
  }

  lemma {:induction false} FramesAppend(a: seq<Transition>, b: seq<Transition>)
    ensures Frames(a + b) == Frames(a) + Frames(b)
  {
    if a == [] {
      assert a + b == b;
    } else {
      assert (a + b)[1..] == a[1..] + b;
      FramesAppend(a[1..], b);
    }
  }

  /** Which codes are down after a run of transitions. */
  function HeldAfter(held: set<int>, ts: seq<Transition>): set<int>
    decreases ts
  {
    if ts == [] then held
    else HeldAfter(if ts[0].down then held + {ts[0].code} else held - {ts[0].code}, ts[1..])
  }

  lemma {:induction false} HeldAppend(held: set<int>, a: seq<Transition>, b: seq<Transition>)
    ensures HeldAfter(held, a + b) == HeldAfter(HeldAfter(held, a), b)
    decreases a
  {
    if a == [] {
      assert a + b == b;
    } else {
      assert (a + b)[1..] == a[1..] + b;
      HeldAppend(if a[0].down then held + {a[0].code} else held - {a[0].code}, a[1..], b);
    }
  }

  /** The reader. The last four fields are verdicts on everything read so far:
      they start true and never become true again once false. */
  datatype Kernel = Kernel(
    open: bool, touch: bool, relative: bool, width: int, height: int,
    held: set<int>, absX: int, absY: int, relX: int, relY: int, wheel: int,
    frameOpen: bool, frameKeys: nat,
    oneKeyPerFrame: bool,  // no SYN_REPORT frame had two key transitions
    registered: bool,      // only codes registered for the open device were written
    alternating: bool,     // pointer buttons: pressed only when up, released only when down
    inRange: bool)         // absolute positions stayed inside the registered axes

  const NO_DEVICE := Kernel(false, false, false, 0, 0, {}, 0, 0, 0, 0, 0, false, 0, true, true, true, true)

  // The reader knows the codes by their numbers in input-event-codes.h, not by the writer's names.

  /** The codes that only pointer events write in the given mode: touch and back, or the left, right
      and middle mouse buttons. */
  function PointerButtons(touch: bool): set<int> {
    if touch then {0x14a, 158} else {0x110, 0x111, 0x112}
  }

  /** start registers every code below KEY_MAX but one, which depends on the mode. */
  predicate KeyRegistered(touch: bool, code: int) {
    0 <= code < 0x2ff && code != (if touch then 0x110 else 0x14a)
  }

  function KStep(k: Kernel, e: Entry): Kernel {
    match e
    case Create(t, r, w, h) =>
      Kernel(true, t, r, w, h, {}, 0, 0, 0, 0, 0, false, 0,
             k.oneKeyPerFrame, k.registered && !k.open, k.alternating, k.inRange)
    case Destroy =>
      k.(open := false, held := {}, frameOpen := false, frameKeys := 0)
    case Syn =>
      k.(frameOpen := false, frameKeys := 0, registered := k.registered && k.open)
    case Key(c, v) =>
      k.(held := if v != 0 then k.held + {c} else k.held - {c},
         frameOpen := true, frameKeys := k.frameKeys + 1,
         oneKeyPerFrame := k.oneKeyPerFrame && k.frameKeys == 0,
         registered := k.registered && k.open && KeyRegistered(k.touch, c),
         alternating := k.alternating && (c in PointerButtons(k.touch) ==> (v != 0) == (c !in k.held)))
    case Rel(c, v) =>
      k.(relX := if c == 0 then k.relX + v else k.relX,
         relY := if c == 1 then k.relY + v else k.relY,
         wheel := if c == 8 then k.wheel + v else k.wheel,
         frameOpen := true,
         registered := k.registered && k.open && c in {0, 1, 8})
    case Abs(c, v) =>
      k.(absX := if c == 0 then v else k.absX,
         absY := if c == 1 then v else k.absY,
         frameOpen := true,
         registered := k.registered && k.open && c in {0, 1},
         inRange := k.inRange && 0 <= v <= (if c == 0 then k.width else k.height))
  }

  function KRun(k: Kernel, log: seq<Entry>): Kernel
    decreases log
  {
    if log == [] then k else KRun(KStep(k, log[0]), log[1..])
  }

  lemma {:induction false} KRunAppend(k: Kernel, a: seq<Entry>, b: seq<Entry>)
    ensures KRun(k, a + b) == KRun(KRun(k, a), b)
    decreases a
  {
    if a == [] {
      assert a + b == b;
    } else {
      assert (a + b)[1..] == a[1..] + b;
      KRunAppend(KStep(k, a[0]), a[1..], b);
    }
  }

  lemma KRun1(k: Kernel, a: Entry)
    ensures KRun(k, [a]) == KStep(k, a)
  {
    assert [a][1..] == [];
  }

  lemma KRun2(k: Kernel, a: Entry, b: Entry)
    ensures KRun(k, [a, b]) == KStep(KStep(k, a), b)
  {
    assert [a, b][1..] == [b];
    KRun1(KStep(k, a), b);
  }

  lemma KRun3(k: Kernel, a: Entry, b: Entry, c: Entry)
    ensures KRun(k, [a, b, c]) == KStep(KStep(KStep(k, a), b), c)
  {
    assert [a, b, c][1..] == [b, c];
    KRun2(KStep(k, a), b, c);
  }

  /** Codes the keyboard may write in either mode without touching a pointer button. */
  predicate KeyboardCode(c: int) {
    0 < c < KEY_MAX && c !in PointerButtons(true) && c !in PointerButtons(false)
  }

  lemma KRunFrame(k: Kernel, t: Transition)
    requires k.open && !k.frameOpen && k.frameKeys == 0 && KeyboardCode(t.code)
    ensures KRun(k, Frame(t)) == k.(held := if t.down then k.held + {t.code} else k.held - {t.code})
  {
    KRun3(k, Syn, Key(t.code, if t.down then 1 else 0), Syn);
  }

  /** Keyboard frames change the held codes and nothing else. */
  lemma {:induction false} KRunFrames(k: Kernel, ts: seq<Transition>)
    requires k.open && !k.frameOpen && k.frameKeys == 0
    requires forall t | t in ts :: KeyboardCode(t.code)
    ensures KRun(k, Frames(ts)) == k.(held := HeldAfter(k.held, ts))
    decreases ts
  {
    if ts != [] {
      KRunFrame(k, ts[0]);
      KRunAppend(k, Frame(ts[0]), Frames(ts[1..]));
      KRunFrames(KRun(k, Frame(ts[0])), ts[1..]);
    }
  }
}
