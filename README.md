# Controller input of the SM64 PC port, and the cannon trap door

This project is a Dafny model of the controller layer of the Super Mario 64 PC port. It also models one object behaviour, the cannon trap door. Each part is proved against a specification.

- **USB adapter driver** (`src/pc/controller/wup.c`).
  - A GameCube-to-USB adapter sends a 37-byte report: a header byte `0x21`, then four 9-byte port records. Each record holds a status byte, a 16-bit button word and six axis bytes.
  - A Hyperkin N64 adapter sends an 8-byte report. The driver rewrites it into the same per-port layout, remapping the button bits and ramping the stick.
  - The reader decodes each report into the four `struct ports` of its `struct adapter`. It keeps the rumble packet it last sent.
  - Adapters form a list behind a sentinel. New adapters go at the head. Removal unlinks the first adapter of a device. `wup_get_controller_input` reads port 0 of the head adapter.
- **Adapter backend** (`controller_wup.c`). It maps the adapter word onto N64 buttons. It presses C buttons from the C-stick bytes with strict thresholds. It scales each main-stick byte by `saturate` (`v * 3 / 2`, clamped to `int8_t`) and writes the stick only when it is off centre.
  - Every adapter's axes are saturated, so a Hyperkin stick at full deflection reads ±120, though its ramps aim at ±80.
  - The driver never clears a disconnected port, and the read never checks `connected`. Buttons held when the controller is unplugged therefore stay pressed.
- **SDL backend** (`controller_sdl.c`). It has an init flag and a controller lifecycle: a controller that is no longer attached is closed, and the first joystick that is a game controller and opens is used. Each frame it merges the sample into the pad:
  - five digital buttons;
  - right-stick and trigger thresholds;
  - the `TARGET_WEB` workaround, which turns -32768 into 32767 on the vertical axes;
  - a 32-bit squared-length deadzone test;
  - scaling of the left stick by `/ 409`.
- **Entry point** (`controller_entry_point.c`). It chooses the backend list for the platform. `osContInit` runs every backend's `init` once, in array order. `osContGetReadData` zeroes the pad and then runs every backend's `read` into it, in array order.
- **Cannon trap door** (`src/game/behaviors/cannon_door.inc.c`). It has four actions: closed, camera zoom, opening and open. It opens over 81 frames: it sinks for 30 frames, slides for 50, and on frame 80 is replaced by a cannon when the save file has the cannon unlocked.

## How the source is represented

- C values are Dafny types:
  - Status and payload bytes are `bv8`, and button words are `bv16`. Bit tests and shifts are written as in C.
  - Axis bytes are an `int` subtype `0..255`.
  - `int8_t` and `int16_t` are `int` subtypes.
  - C's truncating division is `CTypes.TruncDiv`, because Dafny's `/` is Euclidean.
  - The `uint32_t` sum of the SDL deadzone test wraps explicitly at 2^32.
- Objects whose fields change in place are classes:
  - `struct ports` is `WupAdapter.Port`;
  - `struct adapter` is `WupAdapter.Adapter`;
  - `OSContPad` is `Pad.ContPad`;
  - the statics of `controller_sdl.c` are `ControllerSdl.SdlController`;
  - the cannon door object is `CannonDoor.CannonTrapDoor`.
- Each method is proved equal to a function of its old state. The properties are lemmas about those functions:
  - `DecodePayload`, `DecodeHyperkin` and `Dispatch` for the adapter;
  - `WupRead` and `SdlRead` for the two backends;
  - `ReadAll` for the backend list;
  - `Step` and `Run` for the door.
- C inline arrays are value fields: `axis[6]` of a port, `rumble[5]` of an adapter, and `controllers[4]` as a constant sequence of four distinct ports.
- The adapter list is the sequence of adapters after the sentinel.
- Backends called through `struct ControllerAPI` are the `ControllerEntryPoint.Backend` datatype with a dispatching method.

## Model

| member | source | states |
|---|---|---|
| CTypes.TruncDiv | src/pc/controller/controller_sdl.c:126-127 | C division by a positive divisor: the quotient is rounded toward zero (bounds for each sign), and its magnitude is the magnitude of the dividend divided by the divisor |
| CTypes.TruncDivNegate | src/pc/controller/controller_sdl.c:127 | negating the dividend negates the truncated quotient |
| CTypes.TruncDivMonotone | src/pc/controller/controller_wup.c:15 | truncating division by a positive divisor is monotone |
| Pad.ContPad.Assign | src/pc/controller/controller_api.h:7-10 | a backend's `read` that is not modelled leaves exactly the record it writes |
| WupDecode.ConnectedType | src/pc/controller/wup.c:112-123 | the status is NORMAL iff only bit 0x10 is set, WAVEBIRD iff only bit 0x20 is set, and 0 iff both or neither are set |
| WupDecode.Word | src/pc/controller/wup.c:156 | the high byte of the word is the first button byte and the low byte is the second |
| WupDecode.DecodePayload | src/pc/controller/wup.c:126-168 | no ensures of its own; `DisconnectedKeepsFields` and `ConnectedCopiesRecord` state each field for both branches |
| WupDecode.DisconnectedKeepsFields | src/pc/controller/wup.c:139-146 | a record with no controller type disconnects the port and keeps all its other fields |
| WupDecode.ConnectedCopiesRecord | src/pc/controller/wup.c:126-168 | a record with a type connects the port with that type, takes the rumble-power bit 0x04, copies the button word in byte order and copies each axis byte j from record byte j+3 |
| WupDecode.HyperkinButtons | src/pc/controller/wup.c:469-477 | the result has only bits in 0x130D; Z, R, L, A and B (bits 0x40, 0x20, 0x10, 0x04, 0x02 of byte 0) and START (bit 0x02 of byte 1) each land on their adapter bit, iff set |
| WupDecode.StickLeftRight | src/pc/controller/wup.c:479-510 | the ramp maps into 48..208; it is 48 below 65, 128 on 97..158 and 208 from 191 |
| WupDecode.StickUpDown | src/pc/controller/wup.c:512-540 | the inverted ramp maps into 48..208; it is 208 below 67, 128 on 97..158 and 48 from 189 |
| WupDecode.TruncBelow | src/pc/controller/wup.c:521-532 | the truncating cast of a double just below n/d is the integer v with v*d < n <= v*d + d |
| WupDecode.StickUpDownRounding | src/pc/controller/wup.c:521-532 | at payloads 83, 90, 159 and 166 the decimal constants give 167, 147, 127 and 107, one below the exact line |
| WupDecode.StickLeftRightMonotone | src/pc/controller/wup.c:479-510 | a larger left/right payload never gives a smaller axis value |
| WupDecode.StickUpDownAntitone | src/pc/controller/wup.c:512-540 | a larger up/down payload never gives a larger axis value |
| WupDecode.DecodeHyperkin | src/pc/controller/wup.c:443-548 | no ensures of its own; `HyperkinFields` states every field it writes or keeps |
| WupDecode.HyperkinFields | src/pc/controller/wup.c:443-548 | a Hyperkin report leaves the port connected as a standard controller without rumble power, with the remapped buttons, both stick ramps, C-x as read, C-y inverted (255 - byte), and axes 4 and 5 kept |
| WupAdapter.Dispatch | src/pc/controller/wup.c:595-644 | one reader turn keeps four ports and a five-byte rumble packet |
| WupAdapter.DispatchHyperkin | src/pc/controller/wup.c:595-604 | an 8-byte report decodes into all four ports alike and sends no rumble |
| WupAdapter.DispatchAdapterReport | src/pc/controller/wup.c:606-644 | a 37-byte report with header 0x21 gives port i record bytes 1+9i..9+9i; the packet becomes all-off and is sent iff it differs from the stored one |
| WupAdapter.DispatchIgnores | src/pc/controller/wup.c:606-607 | any other report changes nothing and sends nothing |
| WupAdapter.RumbleSentOnce | src/pc/controller/wup.c:611-644 | after one adapter report, the next report sends no rumble |
| WupAdapter.RumbleStaysOff | src/pc/controller/wup.c:611-644 | with the stored packet all-off, any report keeps it all-off and sends no rumble |
| WupAdapter.StaysOff | src/pc/controller/wup.c:574-644 | from an all-off stored packet, no sequence of reports sends rumble |
| WupAdapter.RumbleNeverResent | src/pc/controller/wup.c:574-644 | after the first adapter report, no sequence of later reports sends rumble again (`SendsRumble`, the turns folded in order, is false) |
| WupAdapter.Port.constructor | src/pc/controller/wup.c:658 | a freshly `calloc`ed port is all zero |
| WupAdapter.Port.HandlePayload | src/pc/controller/wup.c:126-168 | the port's new value is `DecodePayload` of its old value and the 9-byte record |
| WupAdapter.Port.HandleHyperkin | src/pc/controller/wup.c:443-549 | the port's new value is `DecodeHyperkin` of its old value and the 8-byte report |
| WupAdapter.Adapter.constructor | src/pc/controller/wup.c:658-664 | a new adapter has the device, four fresh zero ports and a zero rumble packet |
| WupAdapter.Adapter.HyperkinToAllPorts | src/pc/controller/wup.c:595-604 | the four ports become the ports of `Dispatch` for the 8-byte report |
| WupAdapter.Adapter.RecordsToPorts | src/pc/controller/wup.c:609-633 | the four ports become the ports of `Dispatch` for the adapter report, and the packet built is all-off |
| WupAdapter.Adapter.HandleReport | src/pc/controller/wup.c:595-644 | the ports, the stored packet and whether rumble is sent are all exactly `Dispatch` of the old state |
| WupRegistry.RemoveFirstAbsent | src/pc/controller/wup.c:700-719 | without an adapter of the device, removal leaves the list unchanged |
| WupRegistry.RemoveFirstPresent | src/pc/controller/wup.c:700-719 | with the first adapter of the device at k, exactly that entry goes and the others keep their order |
| WupRegistry.AddThenRemove | src/pc/controller/wup.c:690-719 | pushing an adapter and then removing its device restores the list |
| WupRegistry.RemoveFirst | src/pc/controller/wup.c:700-719 | no ensures of its own; `RemoveFirstAbsent`, `RemoveFirstPresent` and `AddThenRemove` state its result |
| WupRegistry.Registry.constructor | src/pc/controller/wup.c:89 | the sentinel starts with an empty list |
| WupRegistry.Registry.Input | src/pc/controller/wup.c:97-110 | there is no input iff the list is empty |
| WupRegistry.Registry.GetControllerInput | src/pc/controller/wup.c:97-110 | returns true iff the list is non-empty; the caller's buttons and axes are then port 0 of the head adapter, and otherwise they are left as given |
| WupRegistry.Registry.AddAdapter | src/pc/controller/wup.c:656-698 | a zeroed adapter for the device is pushed at the head iff the open succeeds and any kernel driver detaches; otherwise the list is unchanged |
| WupRegistry.Registry.RemoveAdapter | src/pc/controller/wup.c:700-719 | the walk from the sentinel leaves `RemoveFirst` of the old list |
| WupRegistry.Registry.RemoveAll | src/pc/controller/wup.c:789-790 | the shutdown loop empties the list |
| WupRegistry.HotplugCallback | src/pc/controller/wup.c:721-735 | an arrival adds the device exactly as `add_adapter` does, a departure removes it, and the result is 0 |
| ControllerWup.Saturate | src/pc/controller/controller_wup.c:14-17 | the result is `3v/2` (truncated) clamped to -128..127, for each of the three cases |
| ControllerWup.SaturateMonotone | src/pc/controller/controller_wup.c:14-17 | `saturate` is monotone |
| ControllerWup.SaturateZero | src/pc/controller/controller_wup.c:14-17 | the result is zero iff the input is zero, and it keeps the input's sign |
| ControllerWup.SaturateOdd | src/pc/controller/controller_wup.c:14-17 | away from the clamp, `saturate(-v) == -saturate(v)` |
| ControllerWup.AdapterButtons | src/pc/controller/controller_wup.c:46-51 | each of the six adapter bits presses its N64 button, iff set, and nothing else is pressed |
| ControllerWup.CButtons | src/pc/controller/controller_wup.c:52-55 | each C button is pressed iff its strict threshold holds, and none is pressed iff both bytes are in 0x40..0xC0 |
| ControllerWup.ReadButtons | src/pc/controller/controller_wup.c:46-55 | no bit is cleared; each N64 button is set iff it was already set or its adapter input holds; the D-pad bits and the unused bits 0x00C0 are kept |
| ControllerWup.ReadButtonsSplit | src/pc/controller/controller_wup.c:46-55 | the adapter's bits are ORed onto the incoming word: the result is the word OR what they press into a cleared word |
| ControllerWup.WupRead | src/pc/controller/controller_wup.c:40-64 | no ensures of its own; `NoInputKeepsPad`, `WupReadOnlyOrs`, `WupReadStick`, `WupReadOnto` and `ReadButtons` state its result |
| ControllerWup.WupReadOnto | src/pc/controller/controller_wup.c:46-55 | the backend ORs onto any pad exactly the buttons it presses into a cleared pad |
| ControllerWup.NoInputKeepsPad | src/pc/controller/controller_wup.c:43-62 | without adapter input the pad is unchanged |
| ControllerWup.WupReadOnlyOrs | src/pc/controller/controller_wup.c:40-64 | the backend only adds buttons and keeps `errnum` |
| ControllerWup.WupReadStick | src/pc/controller/controller_wup.c:56-61 | the stick is overwritten with the saturated values iff the main-stick bytes are not both 0x80 |
| ControllerWup.HyperkinButtonsEndToEnd | src/pc/controller/wup.c:469-477 | a Hyperkin N64 button pressed in the report sets the same N64 button in the pad, iff pressed or already set |
| ControllerWup.HyperkinCentredKeepsStick | src/pc/controller/wup.c:495-528 | a Hyperkin stick in the flat zone on both axes leaves the pad's stick as it was |
| ControllerWup.HyperkinFullDeflection | src/pc/controller/wup.c:372-375 | the Hyperkin ramps target ±80 around 128, but after `saturate` full deflection gives ±120 in the pad |
| ControllerWup.DisconnectedPortStillRead | src/pc/controller/wup.c:97-146 | a record that disconnects the port keeps its buttons and axes, and the backend reads them exactly as before, since `connected` is never consulted |
| ControllerWup.PressAdapterButtons | src/pc/controller/controller_wup.c:46-51 | the pad's buttons gain exactly `AdapterButtons` of the word, and its other fields are kept |
| ControllerWup.PressCButtons | src/pc/controller/controller_wup.c:52-55 | the pad's buttons gain exactly `CButtons` of the C-stick bytes |
| ControllerWup.SetStick | src/pc/controller/controller_wup.c:56-61 | both stick fields are written with the saturated values iff either is non-zero |
| ControllerWup.ApplyInput | src/pc/controller/controller_wup.c:43-62 | the pad becomes `WupRead` of its old value and the reported input |
| ControllerWup.Read | src/pc/controller/controller_wup.c:40-64 | the pad becomes `WupRead` of its old value and what the adapter list reports |
| ControllerSdl.WebFix | src/pc/controller/controller_sdl.c:100-112 | under the web build the result is never -32768; only -32768 is changed, and it becomes 32767 |
| ControllerSdl.DigitalButtons | src/pc/controller/controller_sdl.c:86-90 | START, Z, R, A and B are pressed iff start, left shoulder, right shoulder, A and X are down, and nothing else is pressed |
| ControllerSdl.RightStickButtons | src/pc/controller/controller_sdl.c:114-117 | each C button is pressed iff the right stick passes 0x4000 strictly in its direction, with up for negative y |
| ControllerSdl.TriggerButtons | src/pc/controller/controller_sdl.c:119-120 | Z and R are pressed iff the left and right trigger exceed 30*256 |
| ControllerSdl.SdlButtons | src/pc/controller/controller_sdl.c:86-120 | no bit is cleared; each N64 button is set iff it was set or one of its SDL inputs holds (Z and R by shoulder or trigger); L, the D-pad and the unused bits 0x00C0 are kept |
| ControllerSdl.MagnitudeSq | src/pc/controller/controller_sdl.c:122 | the unsigned sum lies in 0..2^32-1 |
| ControllerSdl.MagnitudeExact | src/pc/controller/controller_sdl.c:122-123 | for `int16_t` readings neither product nor the sum wraps, so the test is on lx²+ly² |
| ControllerSdl.StickX | src/pc/controller/controller_sdl.c:124-126 | the stick lies in -80..80, has magnitude \|lx\|/409 and the reading's sign |
| ControllerSdl.StickY | src/pc/controller/controller_sdl.c:124-127 | the stick lies in -80..80, has magnitude \|ly\|/409 and the opposite sign, so -32768 gives 80 |
| ControllerSdl.StickMonotone | src/pc/controller/controller_sdl.c:126-127 | the horizontal stick is non-decreasing in its reading and the vertical one non-increasing |
| ControllerSdl.StickOdd | src/pc/controller/controller_sdl.c:126-127 | both axes scale symmetrically, and `StickY(v) == StickX(-v)` |
| ControllerSdl.SdlRead | src/pc/controller/controller_sdl.c:86-128 | no ensures of its own; `SdlButtons`, `SdlReadOnlyOrs`, `SdlReadStick` and `WebFullDown` state its result |
| ControllerSdl.SdlReadOnlyOrs | src/pc/controller/controller_sdl.c:86-128 | the backend only adds buttons and keeps `errnum` |
| ControllerSdl.SdlReadStick | src/pc/controller/controller_sdl.c:122-128 | the stick is written iff lx²+ly² > 4960², after the web fix; otherwise it is kept |
| ControllerSdl.InsideDeadzone | src/pc/controller/controller_sdl.c:122-123 | a stick within ±3507 on both axes never leaves the deadzone |
| ControllerSdl.PastDeadzone | src/pc/controller/controller_sdl.c:122-123 | a stick past ±4960 on either axis always leaves it |
| ControllerSdl.WebFullDown | src/pc/controller/controller_sdl.c:106-127 | a -32768 full-down reading presses C-down and gives stick -80 on the web build, but C-up and +80 natively |
| ControllerSdl.SdlController.constructor | src/pc/controller/controller_sdl.c:16-17 | the statics start with no init and no controller |
| ControllerSdl.SdlController.Init | src/pc/controller/controller_sdl.c:19-26 | `init_ok` becomes true iff SDL_Init succeeds, and otherwise it keeps its value |
| ControllerSdl.SdlController.ScanJoysticks | src/pc/controller/controller_sdl.c:64-76 | the scan succeeds iff some joystick is a game controller that opens |
| ControllerSdl.SdlController.Reconnect | src/pc/controller/controller_sdl.c:52-84 | afterwards a controller is open iff the old one is still attached or the scan finds one |
| ControllerSdl.SdlController.PressDigital | src/pc/controller/controller_sdl.c:86-90 | the pad's buttons gain exactly `DigitalButtons` |
| ControllerSdl.SdlController.PressRightStick | src/pc/controller/controller_sdl.c:114-117 | the pad's buttons gain exactly `RightStickButtons` |
| ControllerSdl.SdlController.PressTriggers | src/pc/controller/controller_sdl.c:119-120 | the pad's buttons gain exactly `TriggerButtons` |
| ControllerSdl.SdlController.SetStick | src/pc/controller/controller_sdl.c:122-128 | the stick is scaled iff the stick moved past the deadzone, and is unchanged otherwise |
| ControllerSdl.SdlController.Read | src/pc/controller/controller_sdl.c:45-130 | without init the pad and state are unchanged; otherwise the lifecycle gives `OpenAfter`, and the pad is `SdlRead` of its old value iff a controller is open |
| ControllerSdl.SdlController.ApplySample | src/pc/controller/controller_sdl.c:86-128 | the pad becomes `SdlRead` of its old value |
| ControllerSdl.SdlController.PressButtons | src/pc/controller/controller_sdl.c:86-120 | the pad's buttons become `SdlButtons` of the old word, and the sticks are kept |
| ControllerEntryPoint.Implementations | src/pc/controller/controller_entry_point.c:20-31 | TAS comes first and keyboard last, with no repeats; XInput iff Windows, SDL iff not Windows, and the adapter iff Linux; SDL comes before the adapter |
| ControllerEntryPoint.FrameEnv | src/pc/controller/controller_sdl.c:45-84 | SDL is active in the frame iff it was initialised and either an attached controller is open or one opens in the scan |
| ControllerEntryPoint.ReadOne | src/pc/controller/controller_entry_point.c:57-59 | no ensures of its own; `ReadOneOnlyOrs` and `ReadOneBackend` state its result |
| ControllerEntryPoint.ReadAll | src/pc/controller/controller_entry_point.c:55-59 | no ensures of its own; `ReadAllFirst`, `ReadAllAppend`, `ReadAllOnlyOrs`, `ReadAllIdle` and the Linux lemmas state its result |
| ControllerEntryPoint.ReadAllFirst | src/pc/controller/controller_entry_point.c:57-59 | the first backend reads the given pad, and the rest read what it left |
| ControllerEntryPoint.ReadAllAppend | src/pc/controller/controller_entry_point.c:57-59 | reading two backend lists one after the other is reading their concatenation |
| ControllerEntryPoint.ReadAllOnlyOrs | src/pc/controller/controller_entry_point.c:49-60 | if the unmodelled backends only add buttons, no button is lost over all reads and `errnum` is kept |
| ControllerEntryPoint.ReadOneOnlyOrs | src/pc/controller/controller_entry_point.c:57-59 | under the same assumption each single backend only adds buttons |
| ControllerEntryPoint.ReadAllIdle | src/pc/controller/controller_entry_point.c:49-60 | with every backend idle the pad is as given, so the game sees the zeroed pad |
| ControllerEntryPoint.LinuxMerge | src/pc/controller/controller_entry_point.c:49-60 | on Linux with TAS and keyboard idle, the frame's pad is the adapter backend's read of what SDL left in the zeroed pad |
| ControllerEntryPoint.LinuxStick | src/pc/controller/controller_entry_point.c:49-60 | on Linux the stick is the adapter's when off centre, else SDL's when past the deadzone, else 0: the later backend wins |
| ControllerEntryPoint.LinuxButtons | src/pc/controller/controller_entry_point.c:49-60 | on Linux the buttons are the OR of SDL's and the adapter's contributions, each pressed into a cleared pad |
| ControllerEntryPoint.ControllerSystem.constructor | src/pc/controller/controller_entry_point.c:20-31 | the backends of the platform start uninitialised, with no SDL controller and no adapters |
| ControllerEntryPoint.ControllerSystem.InitOne | src/pc/controller/controller_entry_point.c:39 | one `init` is logged; only SDL's changes state |
| ControllerEntryPoint.ControllerSystem.OsContInit | src/pc/controller/controller_entry_point.c:33-43 | every backend of the platform is initialised once, in order; `*controllerBits` is 1 and the result 0; SDL's `init_ok` follows SDL_Init when SDL is in the list |
| ControllerEntryPoint.ControllerSystem.OsContStartReadData | src/pc/controller/controller_entry_point.c:45-47 | the result is 0 |
| ControllerEntryPoint.ControllerSystem.ReadOneBackend | src/pc/controller/controller_entry_point.c:58 | one backend's `read` leaves `ReadOne` of the old pad, keeps what the adapter list reports, and updates SDL's lifecycle only for SDL |
| ControllerEntryPoint.ControllerSystem.OsContGetReadData | src/pc/controller/controller_entry_point.c:49-60 | the pad is `ReadAll` of the zero pad over the platform's backends, and SDL's state follows its lifecycle iff SDL is in the list |
| ControllerEntryPoint.ControllerSystem.ReadBackends | src/pc/controller/controller_entry_point.c:55-59 | the loop leaves `ReadAll` of the old pad over the list |
| CannonDoor.InitOutcome | src/game/behaviors/cannon_door.inc.c:5-19 | when unlocked, a cannon spawns at home with the door's parameter byte, and the door is open and deactivated; otherwise nothing changes; no sound is played |
| CannonDoor.OpeningOutcome | src/game/behaviors/cannon_door.inc.c:21-39 | no ensures of its own; `OpeningSinks`, `OpeningSlides` and `OpeningEnds` state each branch |
| CannonDoor.Step | src/game/behaviors/cannon_door.inc.c:41-63 | no ensures of its own; `ClosedStep`, `CamZoomStep`, the three opening lemmas and `OpenIsFinal` state each action |
| CannonDoor.ClosedStep | src/game/behaviors/cannon_door.inc.c:43-50 | a closed door stops, is drawn out to 400 units and starts the zoom iff unlocked |
| CannonDoor.CamZoomStep | src/game/behaviors/cannon_door.inc.c:52-57 | the zoom draws out to 20000 units and starts the opening iff the timer is 60; nothing else changes |
| CannonDoor.OpeningSinks | src/game/behaviors/cannon_door.inc.c:22-28 | before frame 30 the door sinks 0.5 a frame, and the sound plays iff on frame 0 |
| CannonDoor.OpeningSlides | src/game/behaviors/cannon_door.inc.c:29-38 | from frame 30 on, except frame 80, it slides 4 a frame |
| CannonDoor.OpeningEnds | src/game/behaviors/cannon_door.inc.c:30-33 | at frame 80 nothing moves; an unlocked cannon replaces the door, and otherwise the frame is a no-op |
| CannonDoor.OpenIsFinal | src/game/behaviors/cannon_door.inc.c:41-63 | the loop does nothing for an open door |
| CannonDoor.Run | src/game/behaviors/cannon_door.inc.c:41-63 | no ensures of its own; `RunAppend`, `SinkFrames`, `SlideFrames` and `FullOpening` state its result over frames |
| CannonDoor.RunAppend | src/game/behaviors/cannon_door.inc.c:41-63 | running two frame sequences one after the other is running their concatenation |
| CannonDoor.Frames | src/game/behaviors/cannon_door.inc.c:22-29 | the timers a..b-1 are that many consecutive frames |
| CannonDoor.SinkFrames | src/game/behaviors/cannon_door.inc.c:24-28 | a run of frames below 30 lowers the door 0.5 per frame |
| CannonDoor.SlideFrames | src/game/behaviors/cannon_door.inc.c:35-38 | a run of frames in 30..79 moves the door 4 per frame |
| CannonDoor.FullOpening | src/game/behaviors/cannon_door.inc.c:21-39 | frames 0..80 lower the door 15 and move it 200 across; it ends open and deactivated iff unlocked |
| CannonDoor.CannonTrapDoor.constructor | src/game/behaviors/cannon_door.inc.c:41-63 | the object holds the given state and home |
| CannonDoor.CannonTrapDoor.ClosedInit | src/game/behaviors/cannon_door.inc.c:5-19 | the new state and the spawn are exactly `InitOutcome` |
| CannonDoor.CannonTrapDoor.ActOpening | src/game/behaviors/cannon_door.inc.c:21-39 | the new state, the spawn and the sound are exactly `OpeningOutcome` |
| CannonDoor.CannonTrapDoor.Loop | src/game/behaviors/cannon_door.inc.c:41-63 | the new state, the spawn and the sound are exactly `Step` |

## Left out

- libusb and pthreads are inputs or outputs, not modelled code. The transfers, the device list, the 0x13 init write (`wup.c:561-572`), joining the reader thread and `libusb_close` become the reports given to `Adapter.HandleReport` and the outcomes given to `Registry.AddAdapter`. Concurrency between the reader thread and the game thread is not modelled.
- The reader loop's exit on a failed transfer, and the `quitting` flags, are not modelled. The loop body is modelled from one transferred report.
- `add_adapter` exits the process when `calloc` fails (`wup.c:659-663`); that is not modelled.
- WupRegistry.Registry.AddAdapter: on a failed open or detach the source leaks the allocated adapter. The model only states that the list is unchanged.
- `wup_start` is not modelled: device enumeration by vendor and product id, and hotplug registration. It is represented by `HotplugCallback` and `RemoveAll`. The shutdown loop removes the head adapter's device, which `RemoveAll` models directly.
- `wants_saturate` and the third parameter `do_saturate` of `wup_get_controller_input` are not modelled. `controller_wup.c:12` declares the function with two parameters and always saturates, so the address the definition writes to is not one the caller passes. The model follows the caller.
- `controller_wup_init`, the adapter backend's `init`, only starts the `wup_start` thread (`controller_wup.c:22`); `ControllerSystem.inits` records the call. The per-adapter `adapter_thread` that `add_adapter` starts (`wup.c:695`) is not modelled either; its loop body is `Adapter.HandleReport`.
- SDL calls are not modelled: SDL_Init, SDL_GameControllerUpdate, Open and Close, the axis and button getters, and the joystick count. Their results are parameters: `sdlInitOk`, `attached`, `joysticks` and `SdlSample`. `needs_controller_input_update` only gates `printf` and is not modelled.
- Both `prev_pad` printers and all `printf`/`fprintf` logging are left out.
- The recorded-TAS, keyboard and XInput backends are not part of this model. Their effect on the pad in one frame is an arbitrary function in `FrameInput`, and their `init` is only logged. `ReadAllOnlyOrs` assumes they only add buttons.
- `TARGET_WEB` is the input `web` of each frame, although it is a build constant. The model also admits Linux with `web`, which is not a buildable configuration: `wup.c:1` excludes `TARGET_WEB`, while `controller_entry_point.c:27` adds the adapter backend on every `__linux__` build. The lemmas hold for every value of `web`, so the extra combinations only widen what is proved. SDL's backend is compiled into non-Windows builds only, and `controller_sdl.c` is built only there.
- The Python generator and its tables, quoted in the comment at `wup.c:174-441`, `update_wup_logic.py` and `tabledesign.c` are not modelled: they are documentation and tools, not code that runs.
- CannonDoor: `f32` positions and velocities are Dafny reals. The constants the door writes are exact; 0.1 × 4000 rounds to exactly 400 in double and in `f32`. The position updates `o->oPosY += o->oVelY` and `o->oPosX += o->oVelX` (`cannon_door.inc.c:27` and `:37`) are exact whenever the exact sum is representable in `f32` (for example, for any position that is a multiple of 0.5 below 2^22 in magnitude). Other sums are rounded in the source and not in the model, which adds exactly (for example, posY = 0.1f does not give exactly 0.1f - 0.5). The object engine is not modelled: `oTimer`, `save_file_is_cannon_unlocked`, `spawn_object` and `cur_obj_play_sound_2` are inputs and outputs. `ACTIVE_FLAG_DEACTIVATED` is 0, taken from `object_constants.h`, which is not part of this model.
- CannonDoor.FullOpening: frames are the timer values 0..80, assuming the engine's timer counts one per frame while the action is unchanged. The engine's timer reset on an action change is not modelled.
- `sdl_cntrl` is a boolean `open`. The identity of the open controller is not modelled, so which joystick index was opened is not either.
