# VncFlinger: a verified model

VncFlinger is a VNC server for Android. This project models four parts of it and proves what they
promise over whole runs:

- **Change notification** (`ChangeNotification.dfy`). Cursor, frame and clipboard changes arrive on
  other threads, which write fields, set a flag and bump an eventfd; the server loop drains the
  eventfd, tests and clears each flag and reads the fields. The model is a state machine whose steps
  are single memory accesses, so a run is any interleaving. The class `NotifyingDesktop` has the
  notification methods of the source's `AndroidDesktop`, and the tail of the server loop, in the
  source's form: each access to the shared state is a method that moves the state machine by one
  step, and the methods built from them are proved to make exactly the source's steps in order.
- **Input** (`Keymap.dfy`, `InputStream.dfy`, `KeyTranslation.dfy`, `InputDevice.dfy`,
  `InputRuns.dfy`, `Typing.dfy`, `SpecialKeys.dfy`). RFB KeyEvent and PointerEvent messages (sections 7.5.4 and 7.5.5 of
  RFC 6143) become a Linux input event stream. The class `InputDevice` appends to a log; each method
  is proved to do what the function `Step` says. `InputStream.Kernel` is an independent reader of the
  log (held keys, positions, frames, registration), `InputRuns.Recount` an independent recount of the
  calls, `Typing.Reader` an independent US keyboard that turns the log back into text, and
  `SpecialKeyboard.KeysymsOf` an independent table, by key code, of the keys that print nothing.
- **Display geometry** (`Letterbox.dfy`, `Geometry.dfy`, `GeometryObjects.dfy`, `GeometryRuns.dfy`,
  `ScaleDrift.dfy`, `DesktopInput.dfy`). Pixel buffer, virtual display and desktop call each other
  back while the display rotates, the panel changes mode and clients resize their windows. The three
  classes of `GeometryObjects` are proved against the functions of `Geometry` on the value of all of
  them, input device included, and the run theorems are about those functions. `DesktopInput` gives the calls that a run of the desktop makes
  on the input device, so that the results about those calls become results about the desktop.
- **Audio** (`AudioStream.dfy`). The partial-write loop inside the record loop.

Modelling choices. Float ratios are exact (a scale is a pair of naturals, a cast to `uint32_t` is the
floor of the exact quotient); the `uint32_t` subtraction and product of pointer mapping do wrap, and
are proved not to. Where the desktop rectangle is empty, pointer mapping casts 0/0 or n/0 to
`uint32_t`, which C++ leaves undefined: the outcome of the cast is a parameter, so no run is excluded.
Memory is sequentially consistent and each notification channel has one producer. Writes to an open
uinput descriptor succeed, writes to a closed one leave no trace. Uninitialised members are arbitrary
values. What the system answers (uinput, `send`, `AudioRecord::read`, the panel
query) is a parameter. A comment in `start_async` says that it does not block the caller; the future
it discards waits for `start` to finish, so `Reconfigure` is modelled as stop followed by start, and
the run theorems of `InputRuns` allow any calls in between anyway.

Where a promise is false of the code, the exact condition is proved together with a run that breaks
it:

- a frame can be left behind when its wake-up meets no display (`FrameLeftBehind`,
  `FrameCanBeLeftBehind`);
- the server can be shown a mixture of cursors (`DeliveryShowsSources`, `DeliveryIsWhole`,
  `CursorCanBeTorn`);
- a key can be up on the device although its keysym is down (`KeysStayHeld`, `BorrowedShiftIsLost`),
  and in touch mode the End key releases the middle button (`EndFollowsMiddle`, `EndAlwaysFollows`,
  `EndKeyReleasesMiddle`);
- starting an already open input device strands pressed buttons (`StartOnOpenDevice`,
  `StartOnOpenDeviceSticks`), and a button released over the margin of the desktop stays down
  (`PointerTakesEffect`, `ReleaseInMarginIsLost`);
- a resize can be reported as done and ignored on a turned square panel
  (`SuccessfulResizeIsHonoured`, `ResizeCanBeIgnored`);
- a change of panel mode can leave the virtual display and the input axes behind
  (`SyncedWhenFollowed`, `AxesFollowPanel`, `PointersFitAxes`, `PanelCanOutgrowAxes`);
- a pointer can meet an empty rectangle (`RectHasRoom`, `PointerMeetsEmptyRectangle`).

## Model

| member | source | states |
|---|---|---|
| ChangeNotification.InvariantHolds | src/vncflinger/AndroidDesktop.cpp:90-127 | The cursor and wake-up invariants hold in every state of every interleaving of producers and loop. |
| ChangeNotification.CursorConverges | src/vncflinger/AndroidDesktop.cpp:103-118 | With no setCursor under way and no cursor delivery in progress, a clear flag means that the server shows the arguments of the last setCursor, whatever the other channels do; and the flag is clear once the wake-up was sent, the eventfd is drained and the loop is past the test. |
| ChangeNotification.DeliveryIsAMixture | src/vncflinger/AndroidDesktop.cpp:103-118 | A delivery overlapped by one call shows that call in exactly the fields it had written before they were read, and the last complete call in all others. |
| ChangeNotification.MixtureIsWhole | src/vncflinger/AndroidDesktop.cpp:103-118 | A mixture is one of its two cursors for all arguments if and only if those fields are none or all five. |
| ChangeNotification.DeliveryIsWhole | src/vncflinger/AndroidDesktop.cpp:103-118 | Put together, for every delivery overlapped by one call: none overtaken shows the complete call, all overtaken the overlapping one, and with cursors that differ in every field nothing else shows either. |
| ChangeNotification.DeliveryShowsSources | src/vncflinger/AndroidDesktop.cpp:103-118 | For every delivery of every interleaving, whatever the number of calls that overlap it, each field shown is that of the last call that had written it before it was read. |
| ChangeNotification.DeliveryOfOneCall | src/vncflinger/AndroidDesktop.cpp:103-118 | So it shows a whole call if all five fields were read from that call, and only then if that call differs in every field from the others read. |
| ChangeNotification.CursorCanBeTorn | src/vncflinger/AndroidDesktop.cpp:103-118 | A run in which a second call overtakes the loop after one read, and the server is handed the width of one cursor with the rest of the other. |
| ChangeNotification.NoLostWakeup | src/vncflinger/AndroidDesktop.cpp:161-164 | A set flag with no producer still to notify has a positive counter or a loop that will still test it; for frames the only exception is a pass that found no display. |
| ChangeNotification.ChangesAreDelivered | src/vncflinger/main.cpp:368-376 | At rest, the last change of every channel was followed by a delivery of that channel, or, for frames, by a pass without display. |
| ChangeNotification.FrameLeftBehind | src/vncflinger/AndroidDesktop.cpp:120-127 | In every state but the one about to clear the flag, a frame is outstanding if and only if the loop did not stand at the clear when it was signalled and has since left the test only for want of a display. |
| ChangeNotification.RestIsStable | src/vncflinger/main.cpp:368-376 | At rest the loop alone changes nothing, so an outstanding frame waits for the next event. |
| ChangeNotification.FrameCanBeLeftBehind | src/vncflinger/AndroidDesktop.cpp:120-127 | A run in which a client connects, a display delivers a frame and goes away before the loop looks: once a display is back all is at rest and nobody will fetch the frame until the next one. |
| ChangeNotification.ClearsAreCaused | src/vncflinger/AndroidDesktop.cpp:95-118 | Between two clears of a flag there is a set of it: no delivery without a new change. |
| ChangeNotification.LoopUsesUpWork | src/vncflinger/main.cpp:356-376 | While a client is connected every step of the loop that has something to do strictly lowers a work measure, and no step disturbs a producer. |
| ChangeNotification.LoopCanStep | src/vncflinger/main.cpp:356-376 | The loop is never blocked, with or without clients. |
| ChangeNotification.LoopComesToRest | src/vncflinger/main.cpp:356-376 | With silent producers and a client connected, every run of the loop alone that has as many steps as the work measure ends at rest; the measure is at most 29. |
| ChangeNotification.CursorIsEventuallyShown | src/vncflinger/AndroidDesktop.cpp:103-118 | From any reachable state with silent producers and a client connected, any 29 steps of the loop leave the server showing the last cursor. |
| ChangeNotification.NotifyingDesktop.SetCursor | src/vncflinger/AndroidDesktop.cpp:103-110 | The method writes the five fields in the order of the state machine, then sets the flag, then notifies, and leaves the state those steps lead to. |
| ChangeNotification.WritesAreSeenInOrder | src/vncflinger/AndroidDesktop.cpp:103-109 | Another thread sees the fields change in the order width, height, buffer, hotX, hotY, with the flag after the last. |
| ChangeNotification.NotifyingDesktop.NotifyClipboardChanged | src/vncflinger/AndroidDesktop.cpp:90-93 | The method sets the flag and then notifies, and leaves the state those steps lead to. |
| ChangeNotification.NotifyingDesktop.OnFrameAvailable | src/vncflinger/AndroidDesktop.cpp:200-205 | The method sets the flag and then notifies, and leaves the state those steps lead to. |
| ChangeNotification.NotifyingDesktop.NotifyLoop | src/vncflinger/AndroidDesktop.cpp:161-164 | The eventfd counts up and saturates at its maximum instead of wrapping to zero. |
| ChangeNotification.NotifyingDesktop.ServeDisplayEvents | src/vncflinger/main.cpp:359-376 | One turn of the loop makes exactly the accesses of one pass, in order: nothing without clients, else the drain, and if it found something the test, clear, reads and delivery of the cursor, then of frames, then of the clipboard. |
| Input.InputDevice.constructor | src/vncflinger/InputDevice.h:42-43 | Only the descriptor is initialised; every other member is arbitrary. |
| Input.InputDevice.Inject | src/vncflinger/InputDevice.cpp:453-462 | Appends to the stream if and only if the descriptor is open, and reports which. |
| Input.InputDevice.DoKeyboardEvent | src/vncflinger/InputDevice.cpp:517-532 | Writes exactly one frame: SYN, the transition, SYN. |
| Input.InputDevice.DoBasicKeyEvent | src/vncflinger/InputDevice.cpp:534-553 | Letters and digits of the 16-bit truncated keysym, with shift for capitals; fails and writes nothing on any other code. |
| Input.ScanAccents | src/vncflinger/InputDevice.cpp:571-588 | The nested table scan finds the first row whose character matches and whose dead character is known. |
| Input.ScanTables | src/vncflinger/InputDevice.cpp:571-612 | The scans with early return find the class that `Classify` defines by first match. |
| Input.InputDevice.KeyEvent | src/vncflinger/InputDevice.cpp:555-616 | The stream grows by the frames of the keysym's transitions, or not at all on a closed device. |
| Input.InputDevice.PointerEvent | src/vncflinger/InputDevice.cpp:618-725 | The stream grows by motion, left, right, middle and wheel reports in that order, and flags and last position follow the call. |
| Input.InputDevice.Start | src/vncflinger/InputDevice.cpp:351-430 | Flags and mode are overwritten first; then already open, open failure, setup failure and success are told apart. |
| Input.InputDevice.Stop | src/vncflinger/InputDevice.cpp:437-451 | Closes and destroys the device if it was open. |
| Input.InputDevice.Reconfigure | src/vncflinger/InputDevice.cpp:432-435 | Is stop followed by start. |
| KeyTranslation.TransitionsAreKeyboard | src/vncflinger/InputDevice.cpp:555-616 | No keysym ever makes the keyboard write a pointer button or an unregistered code. |
| KeyTranslation.DownHoldsOwnCodes | src/vncflinger/InputDevice.cpp:571-612 | A down event leaves exactly the keysym's own codes newly held and takes away the dead key or modifiers it borrowed, whoever held them. |
| KeyTranslation.UpReleasesOwnCodes | src/vncflinger/InputDevice.cpp:571-612 | An up event releases exactly the codes that the down event left held. |
| InputStream.KRunFrames | src/vncflinger/InputDevice.cpp:517-532 | To the kernel reader a run of keyboard frames changes the held codes and nothing else, and every frame carries one key. |
| InputRuns.RunsAgree | src/vncflinger/InputDevice.cpp:351-725 | After every sequence of key, pointer, start and stop calls the object, the kernel's reading of the stream and the recount of the calls agree. |
| InputRuns.NoStuckKeys | src/vncflinger/InputDevice.cpp:555-715 | Every held code belongs to a keysym whose last event was a down or to a button that is down; with all up, in any release order, nothing is held; a closed device holds nothing. |
| InputRuns.HeldExactly | src/vncflinger/InputDevice.cpp:555-715 | Both directions: the kernel holds exactly the codes that a recount of the calls by own, borrowed and button codes gives. |
| InputRuns.KeysStayHeld | src/vncflinger/InputDevice.cpp:571-612 | Over a run every code of every keysym that is down is held after each call if and only if no call borrows, releases or closes away a code that another keysym owns. |
| InputRuns.BorrowedShiftIsLost | src/vncflinger/InputDevice.cpp:602-611 | A run in which an exclamation mark releases the left shift key that is still down. |
| InputRuns.ButtonsAreHistoryFree | src/vncflinger/InputDevice.cpp:639-714 | Held pointer buttons and tracked flags are a function of the last mask alone, and each button's presses and releases alternate; in touch mode KEY_END belongs to them if and only if the last call that moved it left it as the button is. |
| InputRuns.EndFollowsMiddle | src/vncflinger/InputDevice.cpp:690-714 | In touch mode KEY_END is held exactly when the middle button is down if and only if the last call that moved it was a start, a change of the button, or a key event that agrees with the button. |
| InputRuns.EndAlwaysFollows | src/vncflinger/InputDevice.cpp:690-714 | Over a run that holds after every call if and only if every key event of KEY_END repeats what the middle button does. |
| InputRuns.EndKeyReleasesMiddle | src/vncflinger/InputDevice.cpp:690-714 | A touch-mode run in which the End key releases the middle button that is still down. |
| InputRuns.ButtonsByNumber | src/vncflinger/InputDevice.cpp:639-714 | By code number, over every run: in touch mode 0x14a, 107 and 158 follow bits 0, 1 and 2 of the last mask (107 as far as the End key agrees), in mouse mode 0x110, 0x112 and 0x111 do. |
| InputRuns.WheelByNumber | src/vncflinger/InputDevice.cpp:716-724 | A pointer event turns the wheel up for bit 3 and down for bit 4. |
| InputRuns.ReportsInOrder | src/vncflinger/InputDevice.cpp:618-725 | The literal stream of a relative mouse that moves, presses all three buttons and turns the wheel in one event. |
| InputRuns.HoverIsSilent | src/vncflinger/InputDevice.cpp:624-637 | A touch screen reports nothing while nothing is or was pressed. |
| InputRuns.PressedWhereReported | src/vncflinger/InputDevice.cpp:628-688 | With absolute positions no touch and no mouse button is pressed or released before its position has been reported. |
| InputRuns.DragIsReported | src/vncflinger/InputDevice.cpp:661-714 | With absolute positions a drag of any button ends at the position of the event. |
| InputRuns.MotionIsConserved | src/vncflinger/InputDevice.cpp:624-725 | Relative moves since start sum to the last position, absolute reports end on it, and the net wheel is the number of up masks minus down masks. |
| InputRuns.StreamIsWellFormed | src/vncflinger/InputDevice.cpp:376-407 | No frame is open between calls, no frame carries two keys, only registered codes are written, and in-range callers give in-range reports. |
| InputRuns.StartOnOpenDevice | src/vncflinger/InputDevice.cpp:351-368 | A start on an open device lets the next empty mask clean up the buttons if and only if none was down. |
| InputRuns.StartOnOpenDeviceSticks | src/vncflinger/InputDevice.cpp:351-368 | A five-call run after which the left button is held with every button up. |
| InputRuns.ReadyMeansOpen | src/vncflinger/InputDevice.cpp:437-451 | Once stop has been called, the object accepts events exactly while its descriptor is open. |
| Typing.StrokeReadsBack | src/vncflinger/InputDevice.cpp:534-616 | One down/up stroke of any printing keysym reads back as that character and leaves no modifier or dead key pending. |
| Typing.TypingRoundTrip | src/vncflinger/InputDevice.cpp:534-616 | For every text over ASCII, the accents and the symbols, what typing it adds to the stream reads back as exactly that text. |
| Typing.StreamDeterminesText | src/vncflinger/InputDevice.cpp:534-616 | Two texts with the same stream are the same text, up to the keypad aliases. |
| SpecialKeyboard.SpecialKeyMeans | src/vncflinger/InputDevice.cpp:180-280 | Every keysym of the function range holds exactly the key that an independent table by key code gives for it, keypad and Meta aliases included, or none if no key stands for it. |
| SpecialKeyboard.SpecialStrokeReadsBack | src/vncflinger/InputDevice.cpp:590-596 | One stroke of a special keysym writes the literal press and release frames of that key and nothing else. |
| SpecialKeyboard.HighKeysymsAreCut | src/vncflinger/InputDevice.cpp:534-553 | A keysym beyond 16 bits types the letter or digit that its low 16 bits are, and nothing if they are none. |
| Letterbox.RectIsCentredInside | src/vncflinger/VirtualDisplay.cpp:77-97 | The desktop rectangle lies inside the view, spans one axis at least, and its margins differ by at most a pixel. |
| Letterbox.AspectWithinAPixel | src/vncflinger/VirtualDisplay.cpp:77-87 | The rectangle keeps the source's aspect to within a pixel on the axis that was cut. |
| Letterbox.RectIsMaximal | src/vncflinger/VirtualDisplay.cpp:77-87 | Any uniform scaling of the source that fits the view has floored sides no longer than the rectangle's. |
| Letterbox.RectTransposes | src/vncflinger/VirtualDisplay.cpp:77-97 | Transposing view and source transposes the rectangle, also where both branch conditions hold. |
| Letterbox.RectHasRoom | src/vncflinger/VirtualDisplay.cpp:77-87 | No side of the rectangle is empty if and only if the view is not empty and reaches one source pixel on each axis at the scale of the other; the end-to-end result on positions assumes pointers only then. |
| Letterbox.MappingIsSafe | src/vncflinger/AndroidDesktop.cpp:218-221 | With a 16-bit position and mode and a view of any size the recomputed margin is the rectangle's edge, neither the unsigned subtraction nor the product wraps, and the result is in the axis. |
| Letterbox.MappingIsMonotone | src/vncflinger/AndroidDesktop.cpp:220-221 | The mapping never reverses two positions. |
| Letterbox.MappingEnds | src/vncflinger/AndroidDesktop.cpp:220-221 | The rectangle's ends map to 0 and to the full mode size. |
| Letterbox.MappingIsOnto | src/vncflinger/AndroidDesktop.cpp:220-221 | A rectangle at least as large as the mode reaches every coordinate. |
| Letterbox.MappingIsInjective | src/vncflinger/AndroidDesktop.cpp:220-221 | A rectangle at most as large as the mode keeps positions apart. |
| Geometry.OrientedIsTurned | src/vncflinger/AndroidPixelBuffer.cpp:38-40 | A display counts as rotated, and its mode is transposed, exactly after an odd number of quarter turns. |
| Geometry.DegreesAreTurns | src/vncflinger/AndroidDesktop.cpp:256-258 | The degrees of setDisplayProps are that many quarter turns, anything else none; exactly the positive sizes with non-negative degrees are a panel. |
| GeometryObjects.VirtualDisplay.constructor | src/vncflinger/VirtualDisplay.cpp:30-41 | The source rectangle is the mode after the rotation's number of quarter turns. |
| GeometryObjects.VirtualDisplay.GetDisplayRect | src/vncflinger/VirtualDisplay.cpp:77-97 | The method computes the rectangle that the letterbox lemmas are about. |
| GeometryObjects.AndroidPixelBuffer.SetBufferRotation | src/vncflinger/AndroidPixelBuffer.cpp:42-53 | Size and scales turn and the listener's rebuild of display, rectangle and input device happens in the same call. |
| GeometryObjects.AndroidPixelBuffer.UpdateBufferSize | src/vncflinger/AndroidPixelBuffer.cpp:55-86 | New client size, scales and buffer size, with the listener called only when the size changed. |
| GeometryObjects.AndroidPixelBuffer.SetWindowSize | src/vncflinger/AndroidPixelBuffer.cpp:88-96 | A request equal to the client size is ignored, any other goes through UpdateBufferSize. |
| GeometryObjects.AndroidPixelBuffer.SetDisplayInfo | src/vncflinger/AndroidPixelBuffer.cpp:98-112 | Turn first, then adopt the oriented source if it is new or forced: up to two rebuilds in one call. |
| GeometryObjects.AndroidDesktop.OnBufferDimensionsChanged | src/vncflinger/AndroidDesktop.cpp:277-292 | Rebuilds the virtual display from mode and rotation, takes its rectangle and restarts the input device on the mode's axes. |
| GeometryObjects.AndroidDesktop.UpdateDisplayInfo | src/vncflinger/AndroidDesktop.cpp:230-268 | Reads mirror or virtual panel; an invalid one is refused and changes nothing. |
| GeometryObjects.AndroidDesktop.SetScreenLayout | src/vncflinger/AndroidDesktop.cpp:167-197 | The four outcomes of a client resize and what each leaves. |
| GeometryObjects.AndroidDesktop.PointerEvent | src/vncflinger/AndroidDesktop.cpp:211-227 | Positions outside the rectangle are dropped, others reach the input device mapped, or as whatever the cast gives where the rectangle is empty. |
| GeometryRuns.BeginEstablishes | src/vncflinger/AndroidDesktop.cpp:45-60 | The forced first update makes buffer, client, scales, virtual display and rectangle agree, from uninitialised members. |
| GeometryRuns.DesktopIsCoherent | src/vncflinger/AndroidDesktop.cpp:277-292 | After every operation of every run the virtual display has the buffer's size and the desktop rectangle is its letterbox. |
| GeometryRuns.RefreshKeepsSync | src/vncflinger/AndroidPixelBuffer.cpp:74-86 | After a panel reading the virtual display shows the panel's source if and only if the mode is the same, the buffer turned, or its size changed. |
| GeometryRuns.SyncedWhenFollowed | src/vncflinger/AndroidDesktop.cpp:256-292 | Over every run virtual display, pixel buffer and panel agree after each operation if and only if each panel reading meets that condition. |
| GeometryRuns.FixedPanelIsFollowed | src/vncflinger/AndroidDesktop.cpp:256-292 | A panel of fixed mode, square or not, always meets it, so there the three agree after every operation. |
| GeometryRuns.SourceFollowsRotation | src/vncflinger/AndroidPixelBuffer.cpp:98-112 | Over every run the buffer's source is the mode of the last valid panel reading after its quarter turns, and the buffer is turned after an odd number of them. |
| GeometryRuns.ResizeSucceedsWhen | src/vncflinger/AndroidDesktop.cpp:167-197 | A resize is reported as done exactly if the display is mirrored and the request is positive and differs from what is shown; every other one, and so every one of a virtual display, changes nothing. |
| GeometryRuns.FixedPanelIsExact | src/vncflinger/AndroidPixelBuffer.cpp:42-112 | Fixed non-square panel: over any run buffer equals client and scale is exactly client over source on both axes. |
| GeometryRuns.RefreshTurns | src/vncflinger/AndroidPixelBuffer.cpp:42-112 | There a change of rotation class transposes size, client, source and scales; any other reading changes nothing. |
| GeometryRuns.TurningBackIsIdentity | src/vncflinger/AndroidPixelBuffer.cpp:42-112 | There, without resizes, the buffer depends on the final rotation class only: an even number of changes is the identity. |
| GeometryRuns.BufferIsClientOrTranspose | src/vncflinger/AndroidPixelBuffer.cpp:42-112 | For any modes, rotations and windows the buffer is the client size or its transpose, decided by the parity of turns that left the oriented source alone. |
| GeometryRuns.SuccessfulResizeIsHonoured | src/vncflinger/AndroidDesktop.cpp:183-194 | A resize that returns success leaves the requested size, except exactly when it repeats a non-square client size of a skewed buffer. |
| GeometryRuns.ResizeCanBeIgnored | src/vncflinger/AndroidPixelBuffer.cpp:88-96 | A run on a square panel where a successful resize to 200x100 leaves 100x200. |
| ScaleDrift.ScaleDriftIsBounded | src/vncflinger/AndroidPixelBuffer.cpp:55-86 | Over any run without a turn or a new client size each scale never rises and falls by at most the sum of 1/S over the sources adopted, by less if there was one. |
| ScaleDrift.ReturningLosesLittle | src/vncflinger/AndroidPixelBuffer.cpp:55-86 | Coming back to the first source S0 never enlarges the window and loses less than the sum of S0/S. |
| DesktopInput.DesktopFeedsInput | src/vncflinger/AndroidDesktop.cpp:207-292 | Over every run of the desktop the input device has seen exactly the calls of the run, every start found it closed, and the keysyms down and the mask are those worked out from the operations. |
| DesktopInput.DesktopHasNoStuckKeys | src/vncflinger/AndroidDesktop.cpp:207-292 | Whatever turns, resizes and restarts come between, a held code belongs to a keysym that is down or to a button of the last accepted mask since the last restart; the buttons held are exactly those of that mask; with all up nothing is held. |
| DesktopInput.PointerTakesEffect | src/vncflinger/AndroidDesktop.cpp:211-226 | After every run that leaves the device open, a pointer report leaves the buttons of its mask held if and only if its position is inside the rectangle or it presses what the device's mask presses already. |
| DesktopInput.DeviceIsOfKind | src/vncflinger/AndroidDesktop.cpp:287-288 | Over every run the open device is a touch screen, and relative, exactly as setDisplayProps had asked when it was last restarted. |
| DesktopInput.ReleaseInMarginIsLost | src/vncflinger/AndroidDesktop.cpp:211-217 | A run in which a button pressed inside the rectangle and released over its margin stays held. |
| DesktopInput.OpKeepsAxes | src/vncflinger/AndroidDesktop.cpp:277-292 | An operation leaves the axes of the open device equal to the mode if and only if it is no panel reading or one that keeps up. |
| DesktopInput.AxesFollowPanel | src/vncflinger/AndroidDesktop.cpp:277-292 | Over every run: if each panel reading keeps up the registered axes are the mode after each operation, and while the device stays open only then. |
| DesktopInput.PointerLandsInMode | src/vncflinger/AndroidDesktop.cpp:211-226 | An accepted pointer on a rectangle with room reaches the input device as its offset scaled to the mode, inside the mode. |
| DesktopInput.CornersAreReported | src/vncflinger/AndroidDesktop.cpp:211-226 | The near corner of the rectangle is reported as (0, 0) and the far corner as the whole mode; a position beyond any edge changes nothing. |
| DesktopInput.PointersFitAxes | src/vncflinger/AndroidDesktop.cpp:211-226 | Every pointer of the rectangle stays inside given axes if and only if the mode does. |
| DesktopInput.PanelCanOutgrowAxes | src/vncflinger/AndroidPixelBuffer.cpp:74-86 | A run in which a panel grows by a pixel, the small window hides it, and the corner of the window is reported outside the registered axes. |
| DesktopInput.PointerMeetsEmptyRectangle | src/vncflinger/AndroidDesktop.cpp:211-221 | A run in which an accepted pointer divides by a rectangle of width 0. |
| DesktopInput.KernelSeesGoodStream | src/vncflinger/AndroidDesktop.cpp:207-292 | End to end over every run the kernel reads only registered codes, one key a frame and alternating buttons; and in-range positions if the panel is followed, pointers have room, and modes and coordinates are 16-bit. |
| AudioStream.Socket.SendDataSocket | src/audiostreamer/socketmanager.cpp:178-207 | The do-while loop terminates on the remaining count and leaves the wire and the result that `SendAll` defines. |
| AudioStream.SendDeliversPrefix | src/audiostreamer/socketmanager.cpp:178-207 | Whatever the partial sends, a prefix of the data is delivered, and success means all of it and that there was some. |
| AudioStream.SendFollowsAnswers | src/audiostreamer/socketmanager.cpp:184-204 | It uses just as many answers of the socket as are enough for the data, or stops at the first that takes nothing with all before it delivered. |
| AudioStream.SendSucceedsWhen | src/audiostreamer/socketmanager.cpp:184-204 | It succeeds exactly if there is data and some number of first answers all take something and together as much as that. |
| AudioStream.RecordThread | src/audiostreamer/audiostreamer.cpp:106-117 | The record loop over one reused buffer leaves the wire and the ending that `RecordAll` defines. |
| AudioStream.SessionDelivers | src/audiostreamer/audiostreamer.cpp:106-117 | A stop by the flag leaves every captured byte delivered; a failed send leaves all earlier chunks whole and a strict prefix of its own. |
| AudioStream.SessionEndsWhen | src/audiostreamer/audiostreamer.cpp:106-117 | A session ends before the flag stops it exactly if some chunk meets an answer that takes nothing before it has been taken whole. |
| AudioStream.SessionIsPrefix | src/audiostreamer/audiostreamer.cpp:106-117 | In every case the bytes delivered are a prefix of the bytes captured. |

## Left out

- IEEE float rounding: ratios are exact, so rounding near a pixel boundary is not captured.
- Overflow of the int32 differences in relative pointer mode: differences are plain integers; positions inside an axis cannot overflow, and those that an undefined cast yields are not followed that far.
- DesktopInput.KernelSeesGoodStream: a pointer that meets an empty rectangle is kept out of the claim about positions only; what the undefined cast of the quotient does beyond giving some value, such as trapping, is not modelled.
- Weak memory: the flags and cursor fields are plain members in the source and are modelled as sequentially consistent.
- Lifetime of the cursor bitmap: its address is an opaque number.
- Frame copying, buffer locking and its failures in processFrames: a delivery stands for the attempt.
- AndroidDesktop::stop and AndroidPixelBuffer::reset: they only drop the objects.
- A mirror query that returns a mode and then fails on the rotation: the panel reading is all or nothing.
- The resize callback for a virtual panel: such a resize is refused without a change of state.
- setDimensionsChangedListener is merged into the constructor of the pixel buffer, and setDisplayProps is split into the panel reading and the two input flags.
- SurfaceComposer, BufferQueue and CpuConsumer calls, uinput ioctls, sockets, JNI and TigerVNC: foreign code, kept only as parameters and abstract effects.
- movePointer, setPointer, click, latin1DeadChars and the statement after the return in computeScreenLayout: unused.
- The accept loop and the set-up of AudioRecord: only one session is modelled.
