/** The change-notification protocol between the producers of src/vncflinger/AndroidDesktop.cpp
    (setCursor, onFrameAvailable, notifyClipboardChanged, each on its own thread) and the server
    loop of src/vncflinger/main.cpp, as a state machine over single memory accesses. Memory is
    sequentially consistent and each channel has one producer. */
module ChangeNotification {
  import opened Options

  datatype Channel = Cursor | Frame | Clipboard

  /** The cur_* members; the buffer is its address. */
  datatype Image = Image(width: int, height: int, buffer: int, hotX: int, hotY: int)

  datatype Field = Width | Height | Buffer | HotX | HotY

  const ALL_FIELDS := {Width, Height, Buffer, HotX, HotY}

  function Get(c: Image, f: Field): int {
    match f case Width => c.width case Height => c.height case Buffer => c.buffer case HotX => c.hotX case HotY => c.hotY
  }

  function Put(c: Image, f: Field, v: int): Image {
    match f
    case Width => c.(width := v)
    case Height => c.(height := v)
    case Buffer => c.(buffer := v)
    case HotX => c.(hotX := v)
    case HotY => c.(hotY := v)
  }

  /** The order in which setCursor writes. */
  function FieldAt(i: nat): Field
    requires i < 5
  {
    match i case 0 => Width case 1 => Height case 2 => Buffer case 3 => HotX case _ => HotY
  }

  datatype Writer = NotWriting | Writing(args: Image, written: nat)

  /** Where the server loop stands. The arguments of the server call are read in an order that
      C++ leaves open, so the fields read so far form a map. */
  datatype Consumer =
    | Top
    | Testing(channel: Channel)
    | Clearing(channel: Channel)
    | Delivering(channel: Channel, got: map<Field, int>)

  datatype State = State(
    cells: Image,             // cur_width .. cur_hotY
    flags: set<Channel>,      // the *Changed members that are true
    counter: nat,             // the eventfd
    writer: Writer,           // setCursor before its flag assignment
    notifying: set<Channel>,  // producers between their flag assignment and notify
    consumer: Consumer,
    display: bool,            // mVirtualDisplay and mPixels both exist
    listening: bool,          // a virtual display has registered onFrameAvailable
    clients: bool,            // some client is connected
    server: Option<Image>)    // the cursor last given to the server

  /** eventfd refuses a write that would reach 2^64 - 1. */
  const COUNTER_MAX := 0xffff_ffff_ffff_fffe

  datatype Action =
    | BeginCursor(args: Image)
    | WriteField
    | SetFlag(channel: Channel)
    | Notify(channel: Channel)
    | Drain
    | TestFlag(channel: Channel)
    | SkipFrames
    | ClearFlag(channel: Channel)
    | ReadField(field: Field)
    | Deliver(channel: Channel)
    | SetDisplay(present: bool)
    | SetClients(present: bool)
    | SkipTurn

  predicate Enabled(s: State, a: Action) {
    match a
    case BeginCursor(_) => s.writer.NotWriting? && Cursor !in s.notifying
    case WriteField => s.writer.Writing? && s.writer.written < 5
    case SetFlag(c) =>
      && c !in s.notifying
      && (c == Cursor ==> s.writer.Writing? && s.writer.written == 5)
      && (c == Frame ==> s.listening)
    case Notify(c) => c in s.notifying
    case Drain => s.consumer == Top && s.clients
    case SkipTurn => s.consumer == Top && !s.clients
    case SetClients(_) => s.consumer == Top
    case TestFlag(c) => s.consumer == Testing(c) && (c == Frame ==> s.display)
    case SkipFrames => s.consumer == Testing(Frame) && !s.display
    case ClearFlag(c) => s.consumer == Clearing(c)
    case ReadField(f) => s.consumer.Delivering? && s.consumer.channel == Cursor && f !in s.consumer.got
    case Deliver(c) =>
      s.consumer.Delivering? && s.consumer.channel == c && (c == Cursor ==> s.consumer.got.Keys == ALL_FIELDS)
    case SetDisplay(_) => true
  }

  /** processCursor, then processFrames, then processClipboard, then the loop top. */
  function After(c: Channel): Consumer {
    match c case Cursor => Testing(Frame) case Frame => Testing(Clipboard) case Clipboard => Top
  }

  function ToImage(got: map<Field, int>): Image
    requires got.Keys == ALL_FIELDS
  {
    Image(got[Width], got[Height], got[Buffer], got[HotX], got[HotY])
  }

  function Next(s: State, a: Action): State
    requires Enabled(s, a)
  {
    match a
    case BeginCursor(args) => s.(writer := Writing(args, 0))
    case WriteField =>
      var f := FieldAt(s.writer.written);
      s.(cells := Put(s.cells, f, Get(s.writer.args, f)), writer := s.writer.(written := s.writer.written + 1))
    case SetFlag(c) =>
      s.(flags := s.flags + {c}, notifying := s.notifying + {c},
         writer := if c == Cursor then NotWriting else s.writer)
    case Notify(c) =>
      s.(notifying := s.notifying - {c}, counter := if s.counter < COUNTER_MAX then s.counter + 1 else s.counter)
    case Drain =>
      if s.counter > 0 then s.(counter := 0, consumer := Testing(Cursor)) else s
    case TestFlag(c) => s.(consumer := if c in s.flags then Clearing(c) else After(c))
    case SkipFrames => s.(consumer := After(Frame))
    case ClearFlag(c) => s.(flags := s.flags - {c}, consumer := Delivering(c, map[]))
    case ReadField(f) => s.(consumer := Delivering(Cursor, s.consumer.got[f := Get(s.cells, f)]))
    case Deliver(c) =>
      s.(server := if c == Cursor then Some(ToImage(s.consumer.got)) else s.server, consumer := After(c))
    case SetDisplay(p) => s.(display := p, listening := s.listening || p)
    case SetClients(p) => s.(clients := p)
    case SkipTurn => s
  }

  // ---- Runs: every interleaving of the atomic steps ----

  /** The desktop after construction: the cur_* members are uninitialised, no virtual display has
      existed and no client is connected. */
  function Initial(garbage: Image): State {
    State(garbage, {}, 0, NotWriting, {}, Top, false, false, false, None)
  }

  predicate Valid(s: State, run: seq<Action>)
    decreases run, 0
  {
    run != [] ==>
      Valid(s, run[..|run| - 1]) && Enabled(Reach(s, run[..|run| - 1]), run[|run| - 1])
  }

  function Reach(s: State, run: seq<Action>): State
    requires Valid(s, run)
    decreases run, 1
  {
    if run == [] then s else Next(Reach(s, run[..|run| - 1]), run[|run| - 1])
  }

  /** The arguments of the last setCursor that began. */
  function LastCall(run: seq<Action>): Option<Image> {
    if run == [] then None
    else if run[|run| - 1].BeginCursor? then Some(run[|run| - 1].args)
    else LastCall(run[..|run| - 1])
  }

  /** What has happened since the flag of a channel was last set. */
  function Since(run: seq<Action>, c: Channel): Option<seq<Action>> {
    if run == [] then None
    else if run[|run| - 1] == SetFlag(c) then Some([])
    else
      var before := Since(run[..|run| - 1], c);
      if before.None? then None else Some(before.value + [run[|run| - 1]])
  }

  /** All producers are idle, the loop is at its top and the event counter is drained. */
  predicate AtRest(s: State) {
    s.writer.NotWriting? && s.notifying == {} && s.consumer == Top && s.counter == 0
  }

  // ---- The invariant ----

  /** The loop has drained the counter and will still test this flag in the same pass. */
  predicate WillTest(k: Consumer, c: Channel) {
    match k
    case Top => false
    case Testing(d) => Rank(d) <= Rank(c)
    case Clearing(d) => Rank(d) <= Rank(c)
    case Delivering(d, _) => Rank(d) < Rank(c)
  }

  function Rank(c: Channel): nat { match c case Cursor => 0 case Frame => 1 case Clipboard => 2 }

  /** What has been read of the cursor agrees with the cells. */
  predicate ReadsAgree(got: map<Field, int>, cells: Image) {
    forall f | f in got :: got[f] == Get(cells, f)
  }

  predicate CursorInv(s: State, last: Option<Image>) {
    && (s.writer.Writing? ==>
          && s.writer.written <= 5 && Cursor !in s.notifying
          && last == Some(s.writer.args)
          && forall i: nat | i < s.writer.written :: Get(s.cells, FieldAt(i)) == Get(s.writer.args, FieldAt(i)))
    && (s.writer.NotWriting? && last.Some? ==> s.cells == last.value)
    && (s.writer.NotWriting? && last.Some? && Cursor !in s.flags ==>
          if s.consumer.Delivering? && s.consumer.channel == Cursor
          then ReadsAgree(s.consumer.got, s.cells)
          else s.server == Some(s.cells))
  }

  predicate WakeInv(s: State, c: Channel, since: Option<seq<Action>>) {
    && (s.consumer == Clearing(c) ==> c in s.flags)
    && (c in s.flags ==> since.Some?)
    && (since.Some? ==>
          && (c in s.flags <==> ClearFlag(c) !in since.value)
          && (c !in s.flags && !(s.consumer.Delivering? && s.consumer.channel == c) ==> Deliver(c) in since.value)
          && (TestFlag(c) in since.value && s.consumer != Clearing(c) ==> c !in s.flags)
          && (c in s.flags && c !in s.notifying ==>
                s.counter > 0 || WillTest(s.consumer, c) || (c == Frame && SkipFrames in since.value)))
  }

  function SinceStep(since: Option<seq<Action>>, a: Action, c: Channel): Option<seq<Action>> {
    if a == SetFlag(c) then Some([]) else if since.None? then None else Some(since.value + [a])
  }

  lemma WakeStep(s: State, a: Action, c: Channel, since: Option<seq<Action>>)
    requires Enabled(s, a) && WakeInv(s, c, since)
    ensures WakeInv(Next(s, a), c, SinceStep(since, a, c))
  {
    if LoopAction(a) { LoopKeepsWake(s, a, c, since); } else { OthersKeepWake(s, a, c, since); }
  }

  lemma LoopKeepsWake(s: State, a: Action, c: Channel, since: Option<seq<Action>>)
    requires Enabled(s, a) && WakeInv(s, c, since) && LoopAction(a)
    ensures WakeInv(Next(s, a), c, SinceStep(since, a, c))
  {}

  lemma OthersKeepWake(s: State, a: Action, c: Channel, since: Option<seq<Action>>)
    requires Enabled(s, a) && WakeInv(s, c, since) && !LoopAction(a)
    ensures WakeInv(Next(s, a), c, SinceStep(since, a, c))
  {}

  lemma CursorStep(s: State, a: Action, last: Option<Image>)
    requires Enabled(s, a) && CursorInv(s, last)
    ensures CursorInv(Next(s, a), if a.BeginCursor? then Some(a.args) else last)
  {
    if a == SetFlag(Cursor) { AllFieldsWritten(s.cells, s.writer.args); }
    if LoopAction(a) { LoopKeepsCursor(s, a, last); }
  }

  lemma LoopKeepsCursor(s: State, a: Action, last: Option<Image>)
    requires Enabled(s, a) && CursorInv(s, last) && LoopAction(a)
    ensures CursorInv(Next(s, a), last)
  {}

  lemma AllFieldsWritten(cells: Image, args: Image)
    requires forall i: nat | i < 5 :: Get(cells, FieldAt(i)) == Get(args, FieldAt(i))
    ensures cells == args
  {
    assert Get(cells, FieldAt(0)) == Get(args, FieldAt(0));
    assert Get(cells, FieldAt(1)) == Get(args, FieldAt(1));
    assert Get(cells, FieldAt(2)) == Get(args, FieldAt(2));
    assert Get(cells, FieldAt(3)) == Get(args, FieldAt(3));
    assert Get(cells, FieldAt(4)) == Get(args, FieldAt(4));
  }

  /** The invariant holds in every state of every interleaving. */
  lemma {:induction false} InvariantHolds(garbage: Image, run: seq<Action>)
    requires Valid(Initial(garbage), run)
    ensures var s := Reach(Initial(garbage), run);
      CursorInv(s, LastCall(run)) && forall c :: WakeInv(s, c, Since(run, c))
  {
    if run != [] {
      var before, a := run[..|run| - 1], run[|run| - 1];
      var s := Reach(Initial(garbage), before);
      InvariantHolds(garbage, before);
      CursorStep(s, a, LastCall(before));
      forall c
        ensures WakeInv(Next(s, a), c, Since(run, c))
      {
        WakeStep(s, a, c, Since(before, c));
      }
    }
  }

  // ---- Safety over whole runs ----

  /** Cursor convergence: with no setCursor under way and no cursor delivery in progress, a clear
      flag means that the server shows the arguments of the last setCursor, whatever torn mixtures
      it was given on the way and whatever the other channels do; and the flag is clear once the
      wake-up has been sent, the counter drained and the loop past its test. */
  lemma CursorConverges(garbage: Image, run: seq<Action>)
    requires Valid(Initial(garbage), run) && LastCall(run).Some?
    ensures var s := Reach(Initial(garbage), run);
      s.writer.NotWriting? && !(s.consumer.Delivering? && s.consumer.channel == Cursor) ==>
        && (Cursor !in s.flags ==> s.server == LastCall(run))
        && (Cursor !in s.notifying && s.counter == 0 && !WillTest(s.consumer, Cursor) ==> Cursor !in s.flags)
  {
    InvariantHolds(garbage, run);
    assert WakeInv(Reach(Initial(garbage), run), Cursor, Since(run, Cursor));
  }

  /** No lost wake-up: a flag that is set, with no producer still to notify, has the counter
      positive or the loop on its way to the test; for frames this can fail only if, since the
      flag was set, a pass found no display. */
  lemma NoLostWakeup(garbage: Image, run: seq<Action>, c: Channel)
    requires Valid(Initial(garbage), run)
    ensures var s := Reach(Initial(garbage), run);
      c in s.flags && c !in s.notifying ==>
        s.counter > 0 || WillTest(s.consumer, c)
        || (c == Frame && Since(run, c).Some? && SkipFrames in Since(run, c).value)
  {
    InvariantHolds(garbage, run);
    assert WakeInv(Reach(Initial(garbage), run), c, Since(run, c));
  }

  /** Every change is acted on: at rest, the last change of a channel was followed by a delivery
      of that channel, or, for frames, by a pass that found no display. */
  lemma ChangesAreDelivered(garbage: Image, run: seq<Action>, c: Channel)
    requires Valid(Initial(garbage), run) && AtRest(Reach(Initial(garbage), run)) && Since(run, c).Some?
    ensures Deliver(c) in Since(run, c).value || (c == Frame && SkipFrames in Since(run, c).value)
  {
    InvariantHolds(garbage, run);
    assert WakeInv(Reach(Initial(garbage), run), c, Since(run, c));
  }

  /** The last frame event found the loop elsewhere than at its clear, and whenever the loop has
      left the test since then, there was no display. */
  predicate PassedBy(s: State, run: seq<Action>)
    requires Valid(s, run)
    decreases run
  {
    if run == [] then false
    else
      var before, a := Reach(s, run[..|run| - 1]), run[|run| - 1];
      StillPassedBy(before, a, PassedBy(s, run[..|run| - 1]))
  }

  predicate StillPassedBy(s: State, a: Action, passedBy: bool)
    requires Enabled(s, a)
  {
    if a == SetFlag(Frame) then s.consumer != Clearing(Frame)
    else passedBy && (s.consumer == Testing(Frame) && Next(s, a).consumer != Testing(Frame) ==> !s.display)
  }

  predicate FrameOutstanding(s: State, passedBy: bool) {
    if s.consumer == Clearing(Frame) then Frame in s.flags && !passedBy else Frame in s.flags <==> passedBy
  }

  lemma FrameStep(s: State, a: Action, passedBy: bool)
    requires Enabled(s, a) && FrameOutstanding(s, passedBy)
    ensures FrameOutstanding(Next(s, a), StillPassedBy(s, a, passedBy))
  {}

  /** Exactly when a frame is left behind, in every state in which the loop is not about to clear
      the flag: every pass since the frame event took the early return for want of a display. */
  lemma {:induction false} FrameLeftBehind(garbage: Image, run: seq<Action>)
    requires Valid(Initial(garbage), run)
    ensures FrameOutstanding(Reach(Initial(garbage), run), PassedBy(Initial(garbage), run))
  {
    if run != [] {
      var before, a := run[..|run| - 1], run[|run| - 1];
      FrameLeftBehind(garbage, before);
      FrameStep(Reach(Initial(garbage), before), a, PassedBy(Initial(garbage), before));
    }
  }

  /** At rest the loop alone changes nothing, so a frame left behind waits for the next event. */
  lemma {:induction false} RestIsStable(s: State, run: seq<Action>)
    requires AtRest(s) && Valid(s, run) && LoopOnly(run)
    ensures Reach(s, run) == s
  {
    if run != [] {
      assert run[|run| - 1] in run;
      RestIsStable(s, run[..|run| - 1]);
    }
  }

  const FRAME_ARRIVES := [SetClients(true), SetDisplay(true), SetFlag(Frame)]
  const DISPLAY_LEAVES := [Notify(Frame), SetDisplay(false), Drain]
  const PASS_WITHOUT_DISPLAY := [TestFlag(Cursor), SkipFrames, TestFlag(Clipboard)]

  lemma FrameIsSkipped(s: State)
    requires s.consumer == Testing(Cursor) && s.flags == {Frame} && !s.display
    ensures Valid(s, PASS_WITHOUT_DISPLAY + [SetDisplay(true)])
    ensures Reach(s, PASS_WITHOUT_DISPLAY + [SetDisplay(true)]) == s.(consumer := Top, display := true, listening := true)
  {
    Three(s, TestFlag(Cursor), SkipFrames, TestFlag(Clipboard));
    One(s.(consumer := Top), SetDisplay(true));
    Then(s, PASS_WITHOUT_DISPLAY, s.(consumer := Top), [SetDisplay(true)],
         s.(consumer := Top, display := true, listening := true));
  }

  /** Such a run: a client connects, the display appears, a frame arrives, and the display goes away
      before the loop takes the wake-up; once a display exists again everything is at rest and the
      frame is outstanding. */
  lemma FrameCanBeLeftBehind(garbage: Image)
    ensures var run := FRAME_ARRIVES + (DISPLAY_LEAVES + (PASS_WITHOUT_DISPLAY + [SetDisplay(true)]));
      && Valid(Initial(garbage), run)
      && var s := Reach(Initial(garbage), run); AtRest(s) && s.display && s.clients && Frame in s.flags
  {
    var s0 := Initial(garbage);
    var s1 := s0.(clients := true, display := true, listening := true, flags := {Frame}, notifying := {Frame});
    var s2 := s1.(notifying := {}, display := false, counter := 0, consumer := Testing(Cursor));
    var s3 := s2.(consumer := Top, display := true);
    Three(s0, SetClients(true), SetDisplay(true), SetFlag(Frame));
    Three(s1, Notify(Frame), SetDisplay(false), Drain);
    FrameIsSkipped(s2);
    Then(s1, DISPLAY_LEAVES, s2, PASS_WITHOUT_DISPLAY + [SetDisplay(true)], s3);
    Then(s0, FRAME_ARRIVES, s1, DISPLAY_LEAVES + (PASS_WITHOUT_DISPLAY + [SetDisplay(true)]), s3);
  }

  lemma Extend(s: State, run: seq<Action>, a: Action)
    requires Valid(s, run) && Enabled(Reach(s, run), a)
    ensures Valid(s, run + [a]) && Reach(s, run + [a]) == Next(Reach(s, run), a)
  {
    assert (run + [a])[..|run|] == run;
  }

  /** Clears are caused: between two clears of a flag there is a set of it. */
  lemma {:induction false} ClearsAreCaused(garbage: Image, run: seq<Action>, i: nat, j: nat, c: Channel)
    requires Valid(Initial(garbage), run) && i < j < |run|
    requires run[i] == ClearFlag(c) && run[j] == ClearFlag(c)
    ensures exists k :: i < k < j && run[k] == SetFlag(c)
  {
    PrefixIsValid(Initial(garbage), run, j + 1);
    var upTo := run[..j + 1];
    assert upTo[..j] == run[..j];
    assert Enabled(Reach(Initial(garbage), run[..j]), ClearFlag(c));
    InvariantHolds(garbage, run[..j]);
    assert WakeInv(Reach(Initial(garbage), run[..j]), c, Since(run[..j], c));
    SinceReachesBack(run[..j], c, i);
  }

  lemma {:induction false} PrefixIsValid(s: State, run: seq<Action>, n: nat)
    requires Valid(s, run) && n <= |run|
    ensures Valid(s, run[..n])
  {
    if n < |run| {
      assert run[..|run| - 1][..n] == run[..n];
      PrefixIsValid(s, run[..|run| - 1], n);
    } else {
      assert run[..n] == run;
    }
  }

  /** If nothing after position i set the flag, the action at i is among those since the last set. */
  lemma {:induction false} SinceReachesBack(run: seq<Action>, c: Channel, i: nat)
    requires i < |run| && Since(run, c).Some? && run[i] != SetFlag(c)
    ensures run[i] in Since(run, c).value || exists k :: i < k < |run| && run[k] == SetFlag(c)
  {
    var last := |run| - 1;
    if run[last] != SetFlag(c) && i < last {
      SinceReachesBack(run[..last], c, i);
    }
  }

  // ---- What one delivery shows ----

  function FieldIndex(f: Field): nat { match f case Width => 0 case Height => 1 case Buffer => 2 case HotX => 3 case HotY => 4 }

  /** The arguments of the last setCursor that got as far as its flag. */
  function LastDone(run: seq<Action>): Option<Image> {
    if run == [] then None
    else if run[|run| - 1] == SetFlag(Cursor) then LastCall(run[..|run| - 1])
    else LastDone(run[..|run| - 1])
  }

  /** The cells hold the arguments of one call up to a field, and from there on those of another. */
  predicate Written(cells: Image, a: Image, b: Image, n: nat) {
    forall f: Field :: Get(cells, f) == Get(if FieldIndex(f) < n then b else a, f)
  }

  predicate DoneInv(s: State, last: Option<Image>, done: Option<Image>) {
    && (s.writer.NotWriting? ==> done == last)
    && (Cursor in s.flags ==> done.Some?)
    && (done.Some? ==> if s.writer.Writing? then Written(s.cells, done.value, s.writer.args, s.writer.written)
                       else s.cells == done.value)
  }

  lemma DoneStep(s: State, a: Action, last: Option<Image>, done: Option<Image>)
    requires Enabled(s, a) && CursorInv(s, last) && DoneInv(s, last, done)
    ensures DoneInv(Next(s, a), if a.BeginCursor? then Some(a.args) else last, if a == SetFlag(Cursor) then last else done)
  {
    if a == WriteField && done.Some? { WriteStep(s.cells, done.value, s.writer.args, s.writer.written); }
    if a == SetFlag(Cursor) { AllFieldsWritten(s.cells, s.writer.args); }
  }

  lemma WriteStep(cells: Image, a: Image, b: Image, n: nat)
    requires n < 5 && Written(cells, a, b, n)
    ensures Written(Put(cells, FieldAt(n), Get(b, FieldAt(n))), a, b, n + 1)
  {}

  lemma {:induction false} DoneHolds(garbage: Image, run: seq<Action>)
    requires Valid(Initial(garbage), run)
    ensures DoneInv(Reach(Initial(garbage), run), LastCall(run), LastDone(run))
  {
    if run != [] {
      var before, a := run[..|run| - 1], run[|run| - 1];
      DoneHolds(garbage, before);
      InvariantHolds(garbage, before);
      DoneStep(Reach(Initial(garbage), before), a, LastCall(before), LastDone(before));
    }
  }

  function Pick(a: Image, b: Image, late: set<Field>, f: Field): int { Get(if f in late then b else a, f) }

  /** Some fields of b, the others of a. */
  function Mix(a: Image, b: Image, late: set<Field>): Image {
    Image(Pick(a, b, late, Width), Pick(a, b, late, Height), Pick(a, b, late, Buffer), Pick(a, b, late, HotX), Pick(a, b, late, HotY))
  }

  function Writes(window: seq<Action>): nat {
    if window == [] then 0
    else Writes(window[..|window| - 1]) + if window[|window| - 1] == WriteField then 1 else 0
  }

  /** The fields that were already written when the loop came to read them, if n of them were
      written before the window. */
  function Overtaken(n: nat, window: seq<Action>): set<Field> {
    if window == [] then {}
    else
      var before, a := window[..|window| - 1], window[|window| - 1];
      Overtaken(n, before) + if a.ReadField? && FieldIndex(a.field) < n + Writes(before) then {a.field} else {}
  }

  /** No setCursor but one with the arguments b is under way at any time in the window. */
  predicate OnlyCall(s: State, window: seq<Action>, b: Image) {
    && (s.writer.Writing? ==> s.writer.args == b)
    && forall a | a in window && a.BeginCursor? :: a.args == b
  }

  /** In the middle of a delivery: n fields of b have been written over those of a, and the fields
      in `late` were read after that. */
  predicate WindowInv(s: State, a: Image, b: Image, n: nat, late: set<Field>) {
    && s.consumer.Delivering? && s.consumer.channel == Cursor
    && late <= s.consumer.got.Keys
    && (forall f | f in s.consumer.got :: s.consumer.got[f] == Pick(a, b, late, f))
    && Written(s.cells, a, b, n)
    && (s.writer.Writing? ==> s.writer.args == b && s.writer.written <= 5 && (s.writer.written == n || n >= 5))
    && (s.writer.NotWriting? ==> n == 0 || n >= 5)
  }

  lemma WindowStep(s: State, act: Action, a: Image, b: Image, n: nat, late: set<Field>)
    requires Enabled(s, act) && act != Deliver(Cursor) && (act.BeginCursor? ==> act.args == b)
    requires WindowInv(s, a, b, n, late)
    ensures WindowInv(Next(s, act), a, b, n + if act == WriteField then 1 else 0,
                      late + if act.ReadField? && FieldIndex(act.field) < n then {act.field} else {})
  {
    if act == WriteField {
      if n < 5 { WriteStep(s.cells, a, b, n); } else { AllWritten(s.cells, a, b, n); }
    }
  }

  lemma AllWritten(cells: Image, a: Image, b: Image, n: nat)
    requires Written(cells, a, b, n) && n >= 5
    ensures cells == b
  {
    assert forall f: Field :: Get(cells, f) == Get(b, f);
    AllFieldsWritten(cells, b);
  }

  lemma {:induction false} WindowHolds(s: State, window: seq<Action>, a: Image, b: Image, n: nat)
    requires WindowInv(s, a, b, n, {}) && Valid(s, window) && Deliver(Cursor) !in window && OnlyCall(s, window, b)
    ensures WindowInv(Reach(s, window), a, b, n + Writes(window), Overtaken(n, window))
  {
    if window != [] {
      var before, act := window[..|window| - 1], window[|window| - 1];
      assert act in window;
      WindowHolds(s, before, a, b, n);
      WindowStep(Reach(s, before), act, a, b, n + Writes(before), Overtaken(n, before));
    }
  }

  /** A run that ends in a delivery: the clear of the flag, what happens meanwhile, the call of the
      server. */
  function DeliveryRun(run: seq<Action>, window: seq<Action>): seq<Action> {
    run + ([ClearFlag(Cursor)] + (window + [Deliver(Cursor)]))
  }

  /** How much of a setCursor under way has been written. */
  function WrittenSoFar(s: State): nat { if s.writer.Writing? then s.writer.written else 0 }

  /** What a delivery shows, from the clear of the flag to the call of the server: the fields that
      the one overlapping setCursor had written before they were read are its own, all others are
      those of the last setCursor that was complete when the flag was cleared. */
  lemma DeliveryIsAMixture(garbage: Image, run: seq<Action>, window: seq<Action>, b: Image)
    requires Valid(Initial(garbage), run) && Valid(Initial(garbage), DeliveryRun(run, window))
    requires Deliver(Cursor) !in window && OnlyCall(Reach(Initial(garbage), run), window, b)
    ensures LastDone(run).Some?
    ensures Reach(Initial(garbage), DeliveryRun(run, window)).server
         == Some(Mix(LastDone(run).value, b, Overtaken(WrittenSoFar(Reach(Initial(garbage), run)), window)))
  {
    var s := Reach(Initial(garbage), run);
    ReachSplit(Initial(garbage), run, [ClearFlag(Cursor)] + (window + [Deliver(Cursor)]));
    ReachSplit(s, [ClearFlag(Cursor)], window + [Deliver(Cursor)]);
    OneStep(s, ClearFlag(Cursor));
    var s1 := Next(s, ClearFlag(Cursor));
    ReachSplit(s1, window, [Deliver(Cursor)]);
    InvariantHolds(garbage, run);
    assert WakeInv(s, Cursor, Since(run, Cursor));
    DoneHolds(garbage, run);
    WindowHolds(s1, window, LastDone(run).value, b, WrittenSoFar(s));
    OneStep(Reach(s1, window), Deliver(Cursor));
  }

  lemma OneStep(s: State, a: Action)
    requires Valid(s, [a])
    ensures Enabled(s, a) && Reach(s, [a]) == Next(s, a)
  {
    assert [a][..0] == [];
  }

  lemma MixGet(a: Image, b: Image, late: set<Field>, f: Field)
    ensures Get(Mix(a, b, late), f) == Pick(a, b, late, f)
  {}

  predicate DifferEverywhere(a: Image, b: Image) { forall f: Field :: Get(a, f) != Get(b, f) }

  lemma MixtureOfDifferent(a: Image, b: Image, late: set<Field>)
    requires DifferEverywhere(a, b)
    ensures Mix(a, b, late) == a ==> late == {}
    ensures Mix(a, b, late) == b ==> late == ALL_FIELDS
  {
    if Mix(a, b, late) == a {
      forall f: Field
        ensures f !in late
      {
        MixGet(a, b, late, f);
        assert Get(a, f) != Get(b, f);
      }
    }
    if Mix(a, b, late) == b {
      forall f: Field
        ensures f in late && f in ALL_FIELDS
      {
        MixGet(a, b, late, f);
        assert Get(a, f) != Get(b, f);
        FieldsAreAll(f);
      }
    }
  }

  lemma FieldsAreAll(f: Field)
    ensures f in ALL_FIELDS
  {
    match f case Width => case Height => case Buffer => case HotX => case HotY =>
  }

  /** Whatever the arguments, a mixture is one of its two images if and only if it takes none of
      the fields of the second, or all. */
  lemma MixtureIsWhole(late: set<Field>)
    ensures (forall a, b :: Mix(a, b, late) == a || Mix(a, b, late) == b) <==> late == {} || late == ALL_FIELDS
  {
    var a, b := Image(0, 0, 0, 0, 0), Image(1, 1, 1, 1, 1);
    MixtureOfDifferent(a, b, late);
  }

  /** When a delivery is whole: it shows the complete call if the overlapping one had written none
      of the fields before they were read, the overlapping one if it had written all of them, and,
      for two calls that differ in every field, neither of them in any other case. */
  lemma DeliveryIsWhole(garbage: Image, run: seq<Action>, window: seq<Action>, b: Image)
    requires Valid(Initial(garbage), run) && Valid(Initial(garbage), DeliveryRun(run, window))
    requires Deliver(Cursor) !in window && OnlyCall(Reach(Initial(garbage), run), window, b)
    ensures LastDone(run).Some?
    ensures var late := Overtaken(WrittenSoFar(Reach(Initial(garbage), run)), window);
            var shown := Reach(Initial(garbage), DeliveryRun(run, window)).server;
      && (late == {} ==> shown == LastDone(run))
      && (late == ALL_FIELDS ==> shown == Some(b))
      && (DifferEverywhere(LastDone(run).value, b) && shown == LastDone(run) ==> late == {})
      && (DifferEverywhere(LastDone(run).value, b) && shown == Some(b) ==> late == ALL_FIELDS)
  {
    DeliveryIsAMixture(garbage, run, window, b);
    if DifferEverywhere(LastDone(run).value, b) {
      MixtureOfDifferent(LastDone(run).value, b, Overtaken(WrittenSoFar(Reach(Initial(garbage), run)), window));
    }
  }

  // ---- What a delivery shows, however many calls overlap it ----

  /** How many fields the last setCursor has written. */
  function Progress(run: seq<Action>): nat {
    if run == [] || run[|run| - 1].BeginCursor? then 0
    else Progress(run[..|run| - 1]) + if run[|run| - 1] == WriteField then 1 else 0
  }

  /** For each field the arguments of the call that wrote it last. */
  function Writers(run: seq<Action>): map<Field, Image> {
    if run == [] then map[]
    else
      var before := run[..|run| - 1];
      WritersNext(run[|run| - 1], LastCall(before), Progress(before), Writers(before))
  }

  function WritersNext(a: Action, last: Option<Image>, progress: nat, writers: map<Field, Image>): map<Field, Image> {
    if a == WriteField && progress < 5 && last.Some? then writers[FieldAt(progress) := last.value] else writers
  }

  /** For each field the call whose value the loop read last. */
  function Sources(run: seq<Action>): map<Field, Image> {
    if run == [] then map[] else SourcesNext(run[|run| - 1], Writers(run[..|run| - 1]), Sources(run[..|run| - 1]))
  }

  function SourcesNext(a: Action, writers: map<Field, Image>, sources: map<Field, Image>): map<Field, Image> {
    if a.ReadField? && a.field in writers then sources[a.field := writers[a.field]] else sources
  }

  predicate SourceInv(s: State, last: Option<Image>, progress: nat, writers: map<Field, Image>, sources: map<Field, Image>) {
    && (s.writer.Writing? ==>
          && last == Some(s.writer.args) && s.writer.written == progress <= 5
          && forall f: Field | FieldIndex(f) < progress :: f in writers)
    && (forall f | f in writers :: Get(s.cells, f) == Get(writers[f], f))
    && (s.consumer == Clearing(Cursor) ==> Cursor in s.flags)
    && (Cursor in s.flags || (s.consumer.Delivering? && s.consumer.channel == Cursor) ==> forall f: Field :: f in writers)
    && (s.consumer.Delivering? && s.consumer.channel == Cursor ==>
          forall f | f in s.consumer.got :: f in sources && s.consumer.got[f] == Get(sources[f], f))
  }

  lemma SourceStep(s: State, a: Action, last: Option<Image>, progress: nat, writers: map<Field, Image>, sources: map<Field, Image>)
    requires Enabled(s, a) && SourceInv(s, last, progress, writers, sources)
    ensures SourceInv(Next(s, a), if a.BeginCursor? then Some(a.args) else last,
                      if a.BeginCursor? then 0 else if a == WriteField then progress + 1 else progress,
                      WritersNext(a, last, progress, writers), SourcesNext(a, writers, sources))
  {
    if a == WriteField { WriterStep(s, last, progress, writers, sources); }
    else if LoopAction(a) { ReaderStep(s, a, last, progress, writers, sources); }
  }

  lemma ReaderStep(s: State, a: Action, last: Option<Image>, progress: nat, writers: map<Field, Image>, sources: map<Field, Image>)
    requires Enabled(s, a) && SourceInv(s, last, progress, writers, sources) && LoopAction(a)
    ensures SourceInv(Next(s, a), last, progress, writers, SourcesNext(a, writers, sources))
  {}

  lemma WriterStep(s: State, last: Option<Image>, progress: nat, writers: map<Field, Image>, sources: map<Field, Image>)
    requires Enabled(s, WriteField) && SourceInv(s, last, progress, writers, sources)
    ensures SourceInv(Next(s, WriteField), last, progress + 1, WritersNext(WriteField, last, progress, writers), sources)
  {}

  lemma {:induction false} SourcesHold(garbage: Image, run: seq<Action>)
    requires Valid(Initial(garbage), run)
    ensures SourceInv(Reach(Initial(garbage), run), LastCall(run), Progress(run), Writers(run), Sources(run))
  {
    if run != [] {
      var before, a := run[..|run| - 1], run[|run| - 1];
      SourcesHold(garbage, before);
      SourceStep(Reach(Initial(garbage), before), a, LastCall(before), Progress(before), Writers(before), Sources(before));
    }
  }

  function Assembled(m: map<Field, Image>): Image
    requires forall f: Field :: f in m
  {
    Image(m[Width].width, m[Height].height, m[Buffer].buffer, m[HotX].hotX, m[HotY].hotY)
  }

  /** For every delivery of every interleaving: each field shown is that of the last call that had
      written it before the loop read it. */
  lemma DeliveryShowsSources(garbage: Image, run: seq<Action>)
    requires Valid(Initial(garbage), run) && Enabled(Reach(Initial(garbage), run), Deliver(Cursor))
    ensures forall f: Field :: f in Sources(run)
    ensures Next(Reach(Initial(garbage), run), Deliver(Cursor)).server == Some(Assembled(Sources(run)))
  {
    SourcesHold(garbage, run);
    var got := Reach(Initial(garbage), run).consumer.got;
    forall f: Field
      ensures f in got
    {
      FieldsAreAll(f);
    }
  }

  /** So it shows a whole call if all five fields come from that call, and, when that call differs
      in every field from the others that were read, only then. */
  lemma DeliveryOfOneCall(garbage: Image, run: seq<Action>, a: Image)
    requires Valid(Initial(garbage), run) && Enabled(Reach(Initial(garbage), run), Deliver(Cursor))
    ensures forall f: Field :: f in Sources(run)
    ensures var shown := Next(Reach(Initial(garbage), run), Deliver(Cursor)).server;
      && ((forall f: Field :: Sources(run)[f] == a) ==> shown == Some(a))
      && (shown == Some(a) && (forall f: Field :: Sources(run)[f] == a || DifferEverywhere(a, Sources(run)[f])) ==>
            forall f: Field :: Sources(run)[f] == a)
  {
    DeliveryShowsSources(garbage, run);
    var m := Sources(run);
    forall f: Field
      ensures Get(Assembled(m), f) == Get(m[f], f)
    {
      match f case Width => case Height => case Buffer => case HotX => case HotY =>
    }
  }

  // ---- Progress: with silent producers the loop comes to rest ----

  function Missing(got: map<Field, int>, f: Field): nat { if f in got then 0 else 1 }

  function FieldsLeft(got: map<Field, int>): nat {
    Missing(got, Width) + Missing(got, Height) + Missing(got, Buffer) + Missing(got, HotX) + Missing(got, HotY)
  }

  /** An upper bound on the loop's steps up to its top, plus one more pass if the counter is set. */
  function Work(s: State): nat {
    (match s.consumer
     case Top => 0
     case Testing(c) => (match c case Cursor => 14 case Frame => 6 case Clipboard => 3)
     case Clearing(c) => (match c case Cursor => 13 case Frame => 5 case Clipboard => 2)
     case Delivering(c, got) => (match c case Cursor => 7 + FieldsLeft(got) case Frame => 4 case Clipboard => 1))
    + (if s.counter > 0 then 15 else 0)
  }

  predicate LoopAction(a: Action) {
    a.Drain? || a.SkipTurn? || a.TestFlag? || a.SkipFrames? || a.ClearFlag? || a.ReadField? || a.Deliver?
  }

  /** While a client is connected, every step of the loop uses up work, until there is none. */
  lemma LoopUsesUpWork(s: State, a: Action)
    requires LoopAction(a) && Enabled(s, a) && s.clients
    ensures if Work(s) > 0 then Work(Next(s, a)) < Work(s) else Next(s, a) == s
    ensures Next(s, a).writer == s.writer && Next(s, a).notifying == s.notifying && Next(s, a).clients
  {}

  /** The loop is never stuck. */
  lemma LoopCanStep(s: State) returns (a: Action)
    ensures LoopAction(a) && Enabled(s, a)
  {
    match s.consumer
    case Top => a := if s.clients then Drain else SkipTurn;
    case Testing(c) => a := if c == Frame && !s.display then SkipFrames else TestFlag(c);
    case Clearing(c) => a := ClearFlag(c);
    case Delivering(c, got) =>
      if c != Cursor { a := Deliver(c); }
      else if Width !in got { a := ReadField(Width); }
      else if Height !in got { a := ReadField(Height); }
      else if Buffer !in got { a := ReadField(Buffer); }
      else if HotX !in got { a := ReadField(HotX); }
      else if HotY !in got { a := ReadField(HotY); }
      else {
        forall f: Field
          ensures f in got && f in ALL_FIELDS
        {
          match f case Width => case Height => case Buffer => case HotX => case HotY =>
        }
        a := Deliver(c);
      }
  }

  predicate LoopOnly(run: seq<Action>) { forall a | a in run :: LoopAction(a) }

  lemma WorkIsBounded(s: State)
    ensures Work(s) <= 29
    ensures Work(s) == 0 <==> s.consumer == Top && s.counter == 0
  {}

  /** Once no producer is in the middle of a call, and while a client is connected, every run of
      the loop alone that has as many steps as there was work ends at rest. */
  lemma {:induction false} LoopComesToRest(s: State, run: seq<Action>)
    requires s.writer.NotWriting? && s.notifying == {} && s.clients
    requires Valid(s, run) && LoopOnly(run)
    ensures Reach(s, run).writer.NotWriting? && Reach(s, run).notifying == {} && Reach(s, run).clients
    ensures Work(Reach(s, run)) <= if |run| < Work(s) then Work(s) - |run| else 0
    ensures |run| >= Work(s) ==> AtRest(Reach(s, run))
  {
    if run != [] {
      var before, a := run[..|run| - 1], run[|run| - 1];
      assert a in run;
      LoopComesToRest(s, before);
      LoopUsesUpWork(Reach(s, before), a);
    }
    WorkIsBounded(Reach(s, run));
  }

  /** And the loop does take that many steps: it has runs of every length. */
  lemma {:induction false} LoopRuns(s: State, n: nat) returns (run: seq<Action>)
    ensures |run| == n && Valid(s, run) && LoopOnly(run)
  {
    run := [];
    if n > 0 {
      var before := LoopRuns(s, n - 1);
      var a := LoopCanStep(Reach(s, before));
      Extend(s, before, a);
      run := before + [a];
    }
  }

  /** Put together: after the last setCursor has returned, 29 steps of the loop, whichever they
      are, leave the server showing its cursor. */
  lemma CursorIsEventuallyShown(garbage: Image, run: seq<Action>, more: seq<Action>)
    requires Valid(Initial(garbage), run + more) && LastCall(run).Some?
    requires LoopOnly(more) && |more| >= 29
    ensures Valid(Initial(garbage), run)
    ensures var s := Reach(Initial(garbage), run);
      s.writer.NotWriting? && s.notifying == {} && s.clients ==>
        AtRest(Reach(Initial(garbage), run + more)) && Reach(Initial(garbage), run + more).server == LastCall(run)
  {
    ReachSplit(Initial(garbage), run, more);
    var now := Reach(Initial(garbage), run);
    if now.writer.NotWriting? && now.notifying == {} && now.clients {
      WorkIsBounded(now);
      LoopComesToRest(now, more);
      LoopCallsNothing(run, more);
      CursorConverges(garbage, run + more);
    }
  }

  lemma {:induction false} LoopCallsNothing(run: seq<Action>, more: seq<Action>)
    requires LoopOnly(more)
    ensures LastCall(run + more) == LastCall(run)
  {
    if more == [] {
      assert run + more == run;
    } else {
      var last := |more| - 1;
      assert more[last] in more;
      assert (run + more)[..|run + more| - 1] == run + more[..last];
      LoopCallsNothing(run, more[..last]);
    }
  }

  // ---- The methods as the source writes them, run without interruption ----

  function Bumped(counter: nat): nat { if counter < COUNTER_MAX then counter + 1 else counter }

  /** The steps of one setCursor call, and where they lead. */
  function SetCursorSteps(args: Image): seq<Action> {
    [BeginCursor(args), WriteField, WriteField] + ([WriteField, WriteField, WriteField] + [SetFlag(Cursor), Notify(Cursor)])
  }

  function CursorSet(s: State, args: Image): State {
    s.(cells := args, flags := s.flags + {Cursor}, counter := Bumped(s.counter))
  }

  lemma Then(s: State, a: seq<Action>, mid: State, b: seq<Action>, end: State)
    requires Valid(s, a) && Reach(s, a) == mid && Valid(mid, b) && Reach(mid, b) == end
    ensures Valid(s, a + b) && Reach(s, a + b) == end
  {
    ReachAppend(s, a, b);
  }

  lemma {:induction false} ReachAppend(s: State, a: seq<Action>, b: seq<Action>)
    requires Valid(s, a) && Valid(Reach(s, a), b)
    ensures Valid(s, a + b) && Reach(s, a + b) == Reach(Reach(s, a), b)
  {
    if b == [] {
      assert a + b == a;
    } else {
      assert (a + b)[..|a + b| - 1] == a + b[..|b| - 1];
      ReachAppend(s, a, b[..|b| - 1]);
    }
  }

  lemma {:induction false} ReachSplit(s: State, a: seq<Action>, b: seq<Action>)
    requires Valid(s, a + b)
    ensures Valid(s, a) && Valid(Reach(s, a), b) && Reach(s, a + b) == Reach(Reach(s, a), b)
  {
    if b == [] {
      assert a + b == a;
    } else {
      assert (a + b)[..|a + b| - 1] == a + b[..|b| - 1];
      ReachSplit(s, a, b[..|b| - 1]);
    }
  }

  lemma One(s: State, a: Action)
    requires Enabled(s, a)
    ensures Valid(s, [a]) && Reach(s, [a]) == Next(s, a)
  {
    Extend(s, [], a);
    assert [] + [a] == [a];
  }

  lemma Two(s: State, a: Action, b: Action)
    requires Enabled(s, a) && Enabled(Next(s, a), b)
    ensures Valid(s, [a, b]) && Reach(s, [a, b]) == Next(Next(s, a), b)
  {
    One(s, a);
    Extend(s, [a], b);
    assert [a] + [b] == [a, b];
  }

  lemma Three(s: State, a: Action, b: Action, c: Action)
    requires Enabled(s, a) && Enabled(Next(s, a), b) && Enabled(Next(Next(s, a), b), c)
    ensures Valid(s, [a, b, c]) && Reach(s, [a, b, c]) == Next(Next(Next(s, a), b), c)
  {
    Two(s, a, b);
    Extend(s, [a, b], c);
    assert [a, b] + [c] == [a, b, c];
  }

  const WRITE_THREE := [WriteField, WriteField, WriteField]
  const PUBLISH := [SetFlag(Cursor), Notify(Cursor)]

  lemma RestOfSetCursor(s: State, args: Image)
    requires s.writer == Writing(args, 2) && s.notifying == {}
    requires s.cells.width == args.width && s.cells.height == args.height
    ensures Valid(s, WRITE_THREE + PUBLISH)
    ensures Reach(s, WRITE_THREE + PUBLISH) == CursorSet(s, args).(writer := NotWriting)
  {
    var s1 := s.(cells := args, writer := Writing(args, 5));
    Three(s, WriteField, WriteField, WriteField);
    Two(s1, SetFlag(Cursor), Notify(Cursor));
    Then(s, WRITE_THREE, s1, PUBLISH, CursorSet(s, args).(writer := NotWriting));
  }

  /** What another thread can see of a call under way: the fields change in the order width, height,
      buffer, hotX, hotY, and the flag cannot be set before the last. */
  lemma WritesAreSeenInOrder(s: State, args: Image)
    requires s.writer == Writing(args, 0)
    ensures var s1 := Next(s, WriteField); var s2 := Next(s1, WriteField); var s3 := Next(s2, WriteField);
            var s4 := Next(s3, WriteField); var s5 := Next(s4, WriteField);
      && s1.cells == s.cells.(width := args.width)
      && s2.cells == s.cells.(width := args.width, height := args.height)
      && s3.cells == Image(args.width, args.height, args.buffer, s.cells.hotX, s.cells.hotY)
      && s4.cells == args.(hotY := s.cells.hotY)
      && s5.cells == args && s5.flags == s.flags && !Enabled(s4, SetFlag(Cursor))
  {}

  lemma SetCursorTakesItsSteps(s: State, args: Image)
    requires s.writer.NotWriting? && s.notifying == {}
    ensures Valid(s, SetCursorSteps(args)) && Reach(s, SetCursorSteps(args)) == CursorSet(s, args)
  {
    var s1 := s.(cells := s.cells.(width := args.width, height := args.height), writer := Writing(args, 2));
    Three(s, BeginCursor(args), WriteField, WriteField);
    RestOfSetCursor(s1, args);
    Then(s, [BeginCursor(args), WriteField, WriteField], s1, WRITE_THREE + PUBLISH, CursorSet(s, args));
  }

  /** A torn delivery: a second setCursor overtakes the loop between its first and second read, and
      the server is shown a cursor nobody set. */
  lemma CursorCanBeTorn(garbage: Image, a: Image, b: Image) returns (run: seq<Action>)
    ensures Valid(Initial(garbage), run) && LastCall(run) == Some(b)
    ensures Reach(Initial(garbage), run).server == Some(b.(width := a.width))
  {
    var s0 := Initial(garbage).(clients := true);
    var s1 := CursorSet(s0, a);
    var s2 := s1.(counter := 0, flags := {}, consumer := Delivering(Cursor, map[]));
    One(Initial(garbage), SetClients(true));
    SetCursorTakesItsSteps(s0, a);
    Three(s1, Drain, TestFlag(Cursor), ClearFlag(Cursor));
    var rest := TearingSteps(s2, a, b);
    var s5 := Reach(s2, rest);
    Then(s1, [Drain, TestFlag(Cursor), ClearFlag(Cursor)], s2, rest, s5);
    Then(s0, SetCursorSteps(a), s1, [Drain, TestFlag(Cursor), ClearFlag(Cursor)] + rest, s5);
    run := SetCursorSteps(a) + ([Drain, TestFlag(Cursor), ClearFlag(Cursor)] + rest);
    Then(Initial(garbage), [SetClients(true)], s0, run, s5);
    run := [SetClients(true)] + run;
    InvariantHolds(garbage, run);
  }

  lemma TearingSteps(s: State, a: Image, b: Image) returns (run: seq<Action>)
    requires s.cells == a && s.writer.NotWriting? && s.notifying == {} && s.consumer == Delivering(Cursor, map[])
    ensures Valid(s, run)
    ensures Reach(s, run) == s.(cells := b, writer := Writing(b, 5), server := Some(b.(width := a.width)), consumer := Testing(Frame))
  {
    var got := map[Width := a.width];
    var s1 := s.(consumer := Delivering(Cursor, got), cells := a.(width := b.width), writer := Writing(b, 1));
    var s2 := s1.(cells := b.(hotY := a.hotY), writer := Writing(b, 4));
    Three(s, ReadField(Width), BeginCursor(b), WriteField);
    Three(s1, WriteField, WriteField, WriteField);
    run := ReadsAfterTear(s2, a, b);
    var end := Reach(s2, run);
    Then(s1, [WriteField, WriteField, WriteField], s2, run, end);
    Then(s, [ReadField(Width), BeginCursor(b), WriteField], s1, [WriteField, WriteField, WriteField] + run, end);
    run := [ReadField(Width), BeginCursor(b), WriteField] + ([WriteField, WriteField, WriteField] + run);
  }

  function HalfTorn(a: Image, b: Image): map<Field, int> { map[Width := a.width, Height := b.height, Buffer := b.buffer] }

  lemma ReadsAfterTear(s: State, a: Image, b: Image) returns (run: seq<Action>)
    requires s.cells == b.(hotY := a.hotY) && s.writer == Writing(b, 4)
    requires s.consumer == Delivering(Cursor, map[Width := a.width])
    ensures Valid(s, run)
    ensures Reach(s, run) == s.(cells := b, writer := Writing(b, 5), server := Some(b.(width := a.width)), consumer := Testing(Frame))
  {
    var s1 := s.(cells := b, writer := Writing(b, 5), consumer := Delivering(Cursor, HalfTorn(a, b)));
    Three(s, WriteField, ReadField(Height), ReadField(Buffer));
    run := ReadsRest(s1, a, b);
    Then(s, [WriteField, ReadField(Height), ReadField(Buffer)], s1, run, Reach(s1, run));
    run := [WriteField, ReadField(Height), ReadField(Buffer)] + run;
  }

  lemma ReadsRest(s: State, a: Image, b: Image) returns (run: seq<Action>)
    requires s.cells == b && s.consumer == Delivering(Cursor, HalfTorn(a, b))
    ensures Valid(s, run)
    ensures Reach(s, run) == s.(server := Some(b.(width := a.width)), consumer := Testing(Frame))
  {
    var all := HalfTorn(a, b)[HotX := b.hotX][HotY := b.hotY];
    var s2 := s.(consumer := Delivering(Cursor, all));
    Two(s, ReadField(HotX), ReadField(HotY));
    assert all.Keys == ALL_FIELDS;
    assert ToImage(all) == b.(width := a.width);
    One(s2, Deliver(Cursor));
    Then(s, [ReadField(HotX), ReadField(HotY)], s2, [Deliver(Cursor)], Next(s2, Deliver(Cursor)));
    run := [ReadField(HotX), ReadField(HotY)] + [Deliver(Cursor)];
  }

  /** The steps of one pass of the loop, channel by channel. */
  function CursorSteps(s: State): seq<Action> {
    if Cursor in s.flags
    then [TestFlag(Cursor), ClearFlag(Cursor)] + (FIRST_READS + LAST_READS)
    else [TestFlag(Cursor)]
  }

  function FrameSteps(s: State): seq<Action> {
    if !s.display then [SkipFrames]
    else if Frame in s.flags then [TestFlag(Frame), ClearFlag(Frame), Deliver(Frame)]
    else [TestFlag(Frame)]
  }

  function ClipboardSteps(s: State): seq<Action> {
    if Clipboard in s.flags then [TestFlag(Clipboard), ClearFlag(Clipboard), Deliver(Clipboard)] else [TestFlag(Clipboard)]
  }

  function PassSteps(s: State): seq<Action> {
    if !s.clients then [SkipTurn]
    else if s.counter == 0 then [Drain]
    else [Drain] + (CursorSteps(s) + (FrameSteps(s) + ClipboardSteps(s)))
  }

  /** What one undisturbed pass leaves behind. */
  function Passed(s: State): State {
    if !s.clients || s.counter == 0 then s
    else ClipboardPassed(FramePassed(CursorPassed(s.(counter := 0, consumer := Testing(Cursor)))))
  }

  function CursorPassed(s: State): State {
    s.(consumer := Testing(Frame), flags := s.flags - {Cursor},
       server := if Cursor in s.flags then Some(s.cells) else s.server)
  }

  function FramePassed(s: State): State {
    s.(consumer := Testing(Clipboard), flags := if s.display then s.flags - {Frame} else s.flags)
  }

  function ClipboardPassed(s: State): State {
    s.(consumer := Top, flags := s.flags - {Clipboard})
  }

  const FIRST_READS := [ReadField(Width), ReadField(Height), ReadField(HotX)]
  const LAST_READS := [ReadField(HotY), ReadField(Buffer), Deliver(Cursor)]
  const READS := [ReadField(Width), ReadField(Height), ReadField(HotX), ReadField(HotY), ReadField(Buffer)]

  function HalfRead(c: Image): map<Field, int> { map[Width := c.width, Height := c.height, HotX := c.hotX] }

  /** The fields in the order in which the loop's method reads them. */
  function AllRead(c: Image): map<Field, int> { HalfRead(c)[HotY := c.hotY][Buffer := c.buffer] }

  lemma AllReadIsAll(c: Image)
    ensures AllRead(c).Keys == ALL_FIELDS && ToImage(AllRead(c)) == c
  {}

  lemma ReadsFirstHalf(s: State)
    requires s.consumer == Delivering(Cursor, map[])
    ensures Valid(s, FIRST_READS) && Reach(s, FIRST_READS) == s.(consumer := Delivering(Cursor, HalfRead(s.cells)))
  {
    Three(s, ReadField(Width), ReadField(Height), ReadField(HotX));
  }

  lemma ReadsSecondHalf(s: State)
    requires s.consumer == Delivering(Cursor, HalfRead(s.cells))
    ensures Valid(s, LAST_READS) && Reach(s, LAST_READS) == s.(server := Some(s.cells), consumer := Testing(Frame))
  {
    AllReadIsAll(s.cells);
    Three(s, ReadField(HotY), ReadField(Buffer), Deliver(Cursor));
  }

  lemma CursorDelivery(s: State)
    requires s.consumer == Delivering(Cursor, map[])
    ensures Valid(s, FIRST_READS + LAST_READS)
    ensures Reach(s, FIRST_READS + LAST_READS) == s.(server := Some(s.cells), consumer := Testing(Frame))
  {
    var s1 := s.(consumer := Delivering(Cursor, HalfRead(s.cells)));
    ReadsFirstHalf(s);
    ReadsSecondHalf(s1);
    Then(s, FIRST_READS, s1, LAST_READS, s.(server := Some(s.cells), consumer := Testing(Frame)));
  }

  lemma CursorPart(s: State)
    requires s.consumer == Testing(Cursor)
    ensures Valid(s, CursorSteps(s)) && Reach(s, CursorSteps(s)) == CursorPassed(s)
  {
    if Cursor in s.flags {
      var s1 := s.(flags := s.flags - {Cursor}, consumer := Delivering(Cursor, map[]));
      Two(s, TestFlag(Cursor), ClearFlag(Cursor));
      CursorDelivery(s1);
      Then(s, [TestFlag(Cursor), ClearFlag(Cursor)], s1,
           FIRST_READS + LAST_READS, CursorPassed(s));
    } else {
      One(s, TestFlag(Cursor));
      assert s.flags - {Cursor} == s.flags;
    }
  }

  lemma FramePart(s: State)
    requires s.consumer == Testing(Frame)
    ensures Valid(s, FrameSteps(s))
    ensures Reach(s, FrameSteps(s)) == FramePassed(s)
  {
    if !s.display { One(s, SkipFrames); }
    else if Frame in s.flags { Three(s, TestFlag(Frame), ClearFlag(Frame), Deliver(Frame)); }
    else {
      One(s, TestFlag(Frame));
      assert s.flags - {Frame} == s.flags;
    }
  }

  lemma ClipboardPart(s: State)
    requires s.consumer == Testing(Clipboard)
    ensures Valid(s, ClipboardSteps(s))
    ensures Reach(s, ClipboardSteps(s)) == ClipboardPassed(s)
  {
    if Clipboard in s.flags { Three(s, TestFlag(Clipboard), ClearFlag(Clipboard), Deliver(Clipboard)); }
    else {
      One(s, TestFlag(Clipboard));
      assert s.flags - {Clipboard} == s.flags;
    }
  }

  lemma ThreeParts(s0: State)
    requires s0.consumer == Testing(Cursor)
    ensures var steps := CursorSteps(s0) + (FrameSteps(s0) + ClipboardSteps(s0));
      Valid(s0, steps) && Reach(s0, steps) == ClipboardPassed(FramePassed(CursorPassed(s0)))
  {
    var s1 := CursorPassed(s0);
    var s2 := FramePassed(s1);
    var s3 := ClipboardPassed(s2);
    CursorPart(s0);
    FramePart(s1);
    ClipboardPart(s2);
    PartsAreIndependent(s0);
    Then(s1, FrameSteps(s1), s2, ClipboardSteps(s2), s3);
    Then(s0, CursorSteps(s0), s1, FrameSteps(s1) + ClipboardSteps(s2), s3);
  }

  lemma PartsAreIndependent(s: State)
    ensures FrameSteps(CursorPassed(s)) == FrameSteps(s)
    ensures ClipboardSteps(FramePassed(CursorPassed(s))) == ClipboardSteps(s)
  {}

  lemma PassTakesItsSteps(s: State)
    requires s.consumer == Top
    ensures Valid(s, PassSteps(s)) && Reach(s, PassSteps(s)) == Passed(s)
  {
    One(s, if s.clients then Drain else SkipTurn);
    if s.clients && s.counter > 0 {
      var s0 := Next(s, Drain);
      ThreeParts(s0);
      ReachAppend(s, [Drain], CursorSteps(s0) + (FrameSteps(s0) + ClipboardSteps(s0)));
    }
  }

  /** The notification half of the source's AndroidDesktop. */
  class NotifyingDesktop {
    var curWidth: int
    var curHeight: int
    var curBuffer: int
    var curHotX: int
    var curHotY: int
    var cursorChanged: bool
    var frameChanged: bool
    var clipboardChanged: bool
    var eventFd: nat
    var hasDisplay: bool
    var hasListener: bool
    var hasClients: bool
    var serverCursor: Option<Image>
    ghost var writer: Writer
    ghost var notifying: set<Channel>
    ghost var consumer: Consumer
    ghost var accesses: seq<Action>  // what producers and loop have done to the shared state, in order

    /** As the state machine sees it. */
    ghost function Snapshot(): State
      reads this
    {
      State(Image(curWidth, curHeight, curBuffer, curHotX, curHotY),
            (if cursorChanged then {Cursor} else {}) + (if frameChanged then {Frame} else {})
            + (if clipboardChanged then {Clipboard} else {}),
            eventFd, writer, notifying, consumer, hasDisplay, hasListener, hasClients, serverCursor)
    }

    /** No producer is in the middle of a call. */
    ghost predicate Quiet()
      reads this
    {
      writer.NotWriting? && notifying == {}
    }

    constructor (garbage: Image)
      ensures Snapshot() == Initial(garbage) && Quiet() && accesses == []
    {
      curWidth, curHeight, curBuffer := garbage.width, garbage.height, garbage.buffer;
      curHotX, curHotY := garbage.hotX, garbage.hotY;
      cursorChanged, frameChanged, clipboardChanged := false, false, false;
      eventFd, hasDisplay, hasListener, hasClients, serverCursor := 0, false, false, false, None;
      writer, notifying, consumer, accesses := NotWriting, {}, Top, [];
    }

    method NotifyLoop(ghost c: Channel)
      requires c in notifying
      modifies this`eventFd, this`notifying, this`accesses
      ensures Snapshot() == Next(old(Snapshot()), Notify(c)) && accesses == old(accesses) + [Notify(c)]
      ensures eventFd == Bumped(old(eventFd))
    {
      if eventFd < COUNTER_MAX { eventFd := eventFd + 1; }
      notifying := notifying - {c};
      accesses := accesses + [Notify(c)];
    }

    /** One assignment to a cur_* member; only the one whose turn it is. */
    method Store(f: Field, v: int)
      requires writer.Writing? && writer.written < 5 && f == FieldAt(writer.written) && v == Get(writer.args, f)
      modifies this`curWidth, this`curHeight, this`curBuffer, this`curHotX, this`curHotY, this`writer, this`accesses
      ensures Snapshot() == Next(old(Snapshot()), WriteField) && accesses == old(accesses) + [WriteField]
    {
      match f {
        case Width => curWidth := v;
        case Height => curHeight := v;
        case Buffer => curBuffer := v;
        case HotX => curHotX := v;
        case HotY => curHotY := v;
      }
      writer := writer.(written := writer.written + 1);
      accesses := accesses + [WriteField];
    }

    /** The assignment to a *Changed member. */
    method Raise(c: Channel)
      requires Enabled(Snapshot(), SetFlag(c))
      modifies this`cursorChanged, this`frameChanged, this`clipboardChanged, this`writer, this`notifying, this`accesses
      ensures Snapshot() == Next(old(Snapshot()), SetFlag(c)) && accesses == old(accesses) + [SetFlag(c)]
    {
      match c {
        case Cursor =>
          cursorChanged := true;
          writer := NotWriting;
        case Frame => frameChanged := true;
        case Clipboard => clipboardChanged := true;
      }
      notifying := notifying + {c};
      accesses := accesses + [SetFlag(c)];
      assert Snapshot().flags == old(Snapshot()).flags + {c};
    }

    ghost method Enter(args: Image)
      requires Quiet()
      modifies this`writer, this`accesses
      ensures Snapshot() == Next(old(Snapshot()), BeginCursor(args)) && accesses == old(accesses) + [BeginCursor(args)]
    {
      writer := Writing(args, 0);
      accesses := accesses + [BeginCursor(args)];
    }

    method SetCursor(width: int, height: int, hotX: int, hotY: int, buffer: int)
      requires Quiet()
      modifies this
      ensures Quiet() && accesses == old(accesses) + SetCursorSteps(Image(width, height, buffer, hotX, hotY))
      ensures var steps := SetCursorSteps(Image(width, height, buffer, hotX, hotY));
              Valid(old(Snapshot()), steps) && Snapshot() == Reach(old(Snapshot()), steps)
    {
      ghost var args := Image(width, height, buffer, hotX, hotY);
      SetCursorTakesItsSteps(Snapshot(), args);
      Enter(args);
      StoreAll(width, height, hotX, hotY, buffer);
      Raise(Cursor);
      NotifyLoop(Cursor);
    }

    /** The five assignments in the order of the source. */
    method StoreAll(width: int, height: int, hotX: int, hotY: int, buffer: int)
      requires writer == Writing(Image(width, height, buffer, hotX, hotY), 0)
      modifies this`curWidth, this`curHeight, this`curBuffer, this`curHotX, this`curHotY, this`writer, this`accesses
      ensures var args := Image(width, height, buffer, hotX, hotY);
              Snapshot() == old(Snapshot()).(cells := args, writer := Writing(args, 5))
      ensures accesses == old(accesses) + [WriteField, WriteField, WriteField, WriteField, WriteField]
    {
      Store(Width, width); Store(Height, height);
      Store(Buffer, buffer);
      Store(HotX, hotX); Store(HotY, hotY);
    }

    method NotifyClipboardChanged()
      requires Quiet()
      modifies this
      ensures Quiet() && accesses == old(accesses) + [SetFlag(Clipboard)] + [Notify(Clipboard)]
      ensures var steps := [SetFlag(Clipboard)] + [Notify(Clipboard)];
              Valid(old(Snapshot()), steps) && Snapshot() == Reach(old(Snapshot()), steps)
    {
      FlagAndNotify(Snapshot(), Clipboard);
      Raise(Clipboard);
      NotifyLoop(Clipboard);
    }

    /** Called back by a virtual display, so only after one has existed. */
    method OnFrameAvailable()
      requires Quiet() && hasListener
      modifies this
      ensures Quiet() && accesses == old(accesses) + [SetFlag(Frame)] + [Notify(Frame)]
      ensures var steps := [SetFlag(Frame)] + [Notify(Frame)];
              Valid(old(Snapshot()), steps) && Snapshot() == Reach(old(Snapshot()), steps)
    {
      FlagAndNotify(Snapshot(), Frame);
      Raise(Frame);
      NotifyLoop(Frame);
    }

    /** The virtual display is replaced, or dropped by stop; a new one gets the frame listener. */
    method SetVirtualDisplay(present: bool)
      modifies this`hasDisplay, this`hasListener
      ensures Enabled(old(Snapshot()), SetDisplay(present)) && Snapshot() == Next(old(Snapshot()), SetDisplay(present))
    {
      hasDisplay := present;
      if present { hasListener := true; }
    }

    /** read on the eventfd: the whole counter, which it resets. */
    method ReadEventFd() returns (value: nat)
      requires Enabled(Snapshot(), Drain)
      modifies this`eventFd, this`consumer, this`accesses
      ensures value == old(eventFd)
      ensures Snapshot() == Next(old(Snapshot()), Drain) && accesses == old(accesses) + [Drain]
    {
      value := eventFd;
      eventFd := 0;
      if value > 0 { consumer := Testing(Cursor); }
      accesses := accesses + [Drain];
    }

    /** A turn of the loop that finds no client. */
    ghost method TurnAway()
      requires Enabled(Snapshot(), SkipTurn)
      modifies this`accesses
      ensures Snapshot() == Next(old(Snapshot()), SkipTurn) && accesses == old(accesses) + [SkipTurn]
    {
      accesses := accesses + [SkipTurn];
    }

    /** The test of a *Changed member. */
    method IsRaised(c: Channel) returns (raised: bool)
      requires Enabled(Snapshot(), TestFlag(c))
      modifies this`consumer, this`accesses
      ensures raised == (c in old(Snapshot()).flags)
      ensures Snapshot() == Next(old(Snapshot()), TestFlag(c)) && accesses == old(accesses) + [TestFlag(c)]
    {
      match c {
        case Cursor => raised := cursorChanged;
        case Frame => raised := frameChanged;
        case Clipboard => raised := clipboardChanged;
      }
      consumer := if raised then Clearing(c) else After(c);
      accesses := accesses + [TestFlag(c)];
    }

    /** The early return of processFrames. */
    method LacksDisplay() returns (lacks: bool)
      requires consumer == Testing(Frame)
      modifies this`consumer, this`accesses
      ensures lacks == !hasDisplay
      ensures if lacks then Snapshot() == Next(old(Snapshot()), SkipFrames) && accesses == old(accesses) + [SkipFrames]
              else Snapshot() == old(Snapshot()) && accesses == old(accesses)
    {
      lacks := !hasDisplay;
      if lacks {
        consumer := After(Frame);
        accesses := accesses + [SkipFrames];
      }
    }

    method Lower(c: Channel)
      requires Enabled(Snapshot(), ClearFlag(c))
      modifies this`cursorChanged, this`frameChanged, this`clipboardChanged, this`consumer, this`accesses
      ensures Snapshot() == Next(old(Snapshot()), ClearFlag(c)) && accesses == old(accesses) + [ClearFlag(c)]
    {
      match c {
        case Cursor => cursorChanged := false;
        case Frame => frameChanged := false;
        case Clipboard => clipboardChanged := false;
      }
      consumer := Delivering(c, map[]);
      accesses := accesses + [ClearFlag(c)];
      assert Snapshot().flags == old(Snapshot()).flags - {c};
    }

    /** The read of a cur_* member. */
    method Load(f: Field) returns (v: int)
      requires Enabled(Snapshot(), ReadField(f))
      modifies this`consumer, this`accesses
      ensures v == Get(Snapshot().cells, f)
      ensures Snapshot() == Next(old(Snapshot()), ReadField(f)) && accesses == old(accesses) + [ReadField(f)]
    {
      match f {
        case Width => v := curWidth;
        case Height => v := curHeight;
        case Buffer => v := curBuffer;
        case HotX => v := curHotX;
        case HotY => v := curHotY;
      }
      consumer := Delivering(Cursor, consumer.got[f := v]);
      accesses := accesses + [ReadField(f)];
    }

    /** The call of the server with a cursor that has been read. */
    method ShowCursor(c: Image)
      requires Enabled(Snapshot(), Deliver(Cursor)) && c == ToImage(consumer.got)
      modifies this`serverCursor, this`consumer, this`accesses
      ensures Snapshot() == Next(old(Snapshot()), Deliver(Cursor)) && accesses == old(accesses) + [Deliver(Cursor)]
    {
      serverCursor := Some(c);
      consumer := After(Cursor);
      accesses := accesses + [Deliver(Cursor)];
    }

    /** The call of the server for a frame or the clipboard; what it hands over is not modelled. */
    method HandOver(c: Channel)
      requires c != Cursor && Enabled(Snapshot(), Deliver(c))
      modifies this`consumer, this`accesses
      ensures Snapshot() == Next(old(Snapshot()), Deliver(c)) && accesses == old(accesses) + [Deliver(c)]
    {
      consumer := After(c);
      accesses := accesses + [Deliver(c)];
    }

    /** The arguments of the server call, in one of the orders that C++ allows. */
    method LoadAll() returns (c: Image)
      requires consumer == Delivering(Cursor, map[])
      modifies this`consumer, this`accesses
      ensures c == Snapshot().cells
      ensures Snapshot() == old(Snapshot()).(consumer := Delivering(Cursor, AllRead(Snapshot().cells)))
      ensures accesses == old(accesses) + READS
    {
      var width, height, hotX := LoadThree();
      var hotY := Load(HotY);
      var buffer := Load(Buffer);
      c := Image(width, height, buffer, hotX, hotY);
    }

    method LoadThree() returns (width: int, height: int, hotX: int)
      requires consumer == Delivering(Cursor, map[])
      modifies this`consumer, this`accesses
      ensures width == Snapshot().cells.width && height == Snapshot().cells.height && hotX == Snapshot().cells.hotX
      ensures Snapshot() == old(Snapshot()).(consumer := Delivering(Cursor, HalfRead(Snapshot().cells)))
      ensures accesses == old(accesses) + [ReadField(Width), ReadField(Height), ReadField(HotX)]
    {
      width := Load(Width);
      height := Load(Height);
      hotX := Load(HotX);
    }

    method ProcessCursor()
      requires consumer == Testing(Cursor)
      modifies this`cursorChanged, this`serverCursor, this`frameChanged, this`clipboardChanged, this`consumer, this`accesses
      ensures Snapshot() == CursorPassed(old(Snapshot())) && accesses == old(accesses) + CursorSteps(old(Snapshot()))
    {
      var raised := IsRaised(Cursor);
      if !raised {
        assert Snapshot().flags - {Cursor} == Snapshot().flags;
        return;
      }
      Lower(Cursor);
      var c := LoadAll();
      AllReadIsAll(c);
      ShowCursor(c);
      assert CursorSteps(old(Snapshot())) == [TestFlag(Cursor)] + ([ClearFlag(Cursor)] + (READS + [Deliver(Cursor)]));
    }

    method ProcessFrames()
      requires consumer == Testing(Frame)
      modifies this`cursorChanged, this`frameChanged, this`clipboardChanged, this`consumer, this`accesses
      ensures Snapshot() == FramePassed(old(Snapshot())) && accesses == old(accesses) + FrameSteps(old(Snapshot()))
    {
      var lacks := LacksDisplay();
      if lacks { return; }
      var raised := IsRaised(Frame);
      if !raised {
        assert Snapshot().flags - {Frame} == Snapshot().flags;
        return;
      }
      Lower(Frame);
      HandOver(Frame);
    }

    method ProcessClipboard()
      requires consumer == Testing(Clipboard)
      modifies this`cursorChanged, this`frameChanged, this`clipboardChanged, this`consumer, this`accesses
      ensures Snapshot() == ClipboardPassed(old(Snapshot())) && accesses == old(accesses) + ClipboardSteps(old(Snapshot()))
    {
      var raised := IsRaised(Clipboard);
      if !raised {
        assert Snapshot().flags - {Clipboard} == Snapshot().flags;
        return;
      }
      Lower(Clipboard);
      HandOver(Clipboard);
    }

    method ProcessAll()
      requires consumer == Testing(Cursor)
      modifies this`cursorChanged, this`frameChanged, this`clipboardChanged, this`serverCursor, this`consumer, this`accesses
      ensures Snapshot() == ClipboardPassed(FramePassed(CursorPassed(old(Snapshot()))))
      ensures var s := old(Snapshot());
              accesses == old(accesses) + (CursorSteps(s) + (FrameSteps(s) + ClipboardSteps(s)))
    {
      PartsAreIndependent(Snapshot());
      ProcessCursor();
      ProcessFrames();
      ProcessClipboard();
    }

    /** The tail of one turn of the loop in startService, from its check for clients. */
    method ServeDisplayEvents()
      requires consumer == Top
      modifies this
      ensures accesses == old(accesses) + PassSteps(old(Snapshot()))
      ensures Valid(old(Snapshot()), PassSteps(old(Snapshot()))) && Snapshot() == Reach(old(Snapshot()), PassSteps(old(Snapshot())))
    {
      PassTakesItsSteps(Snapshot());
      if hasClients { DrainAndProcess(); } else { TurnAway(); }
    }

    method DrainAndProcess()
      requires consumer == Top && hasClients
      modifies this
      ensures Snapshot() == Passed(old(Snapshot())) && accesses == old(accesses) + PassSteps(old(Snapshot()))
    {
      var eventVal := ReadEventFd();
      ghost var drained := Snapshot();
      if eventVal > 0 {
        ProcessAll();
        assert accesses == old(accesses) + ([Drain] + (CursorSteps(drained) + (FrameSteps(drained) + ClipboardSteps(drained))));
      }
    }
  }

  lemma FlagAndNotify(s: State, c: Channel)
    requires c != Cursor && s.notifying == {} && (c == Frame ==> s.listening)
    ensures var steps := [SetFlag(c)] + [Notify(c)];
      Valid(s, steps) && Reach(s, steps) == s.(flags := s.flags + {c}, counter := Bumped(s.counter))
  {
    One(s, SetFlag(c));
    One(Next(s, SetFlag(c)), Notify(c));
    ReachAppend(s, [SetFlag(c)], [Notify(c)]);
  }
}
