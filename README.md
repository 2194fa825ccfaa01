# P2XI state translation in Dafny

P2XI makes a Nintendo Switch Pro Controller usable as an XInput gamepad on
Windows. A dialog timer calls `update_input_state`. When a DirectInput
device is open and its `DIJOYSTATE2` sample was read, that tick does the
following:

- rebuilds the global `XINPUT_GAMEPAD` (`wButtons`, two triggers, four thumb
  axes) from that sample;
- turns the capture button into Alt+F1 / Alt+F10 keystrokes;
- hands the gamepad state to a virtual XInput bus;
- reads back the bus's feedback request (vibrate flag, two motor
  intensities, LED index);
- scales the motors by the configured maximum;
- writes LED and rumble output reports to the controller, each numbered with
  the low nibble of a `uint8_t` counter and zero-padded to the device's
  output report length.

At start-up, before any tick, one LED report for LED 1 is written.

`Common.hpp` also defines the controller's logical buttons, three 8-entry
region bitmaps from status-byte bits to buttons, and the USB identifiers.

The project has six modules:

- `Primitives`: the C integer widths and the `short`/byte conversions.
- `Controls`: the button enumeration, the region bitmaps and the identifiers.
- `Translator`: the sample-to-gamepad translation as functions.
- `Capture`: the capture-button accumulator as a step function, with runs
  of ticks.
- `Feedback`: motor scaling, LED change detection, the report layouts, zero
  padding and I/O error classification.
- `Polling`: the `controller` fields and the per-tick cycle, as the class
  `Session`. Its methods update the fields in place. The virtual bus,
  `SendInput` and `WriteFile` become logs that the methods append to.

The main invariant is `Session.Valid`: the n-th buffer ever written carries
n mod 16 as its sequence byte, and the counter equals the number of buffers
written mod 256. The start-up LED write and every feedback update preserve
it.

## Behaviour notes

- A capture chord is sent only on release. The long chord is chosen when
  30 or more ticks were held; no chord fires while the button is still held.
- The thumb axes wrap at the ends of the `short` range instead of
  saturating.
- The result of `read_data` is discarded (main.cpp:817), so no input report
  bytes are parsed. The translation reads the DirectInput fields.
- `check_io_error` only tells fatal errors from non-fatal ones, and nothing
  in main.cpp calls it.
- The only call of `init_direct_input` is commented out (main.cpp:838-842).
  `g_p_joystick` therefore stays null, and as the file stands every tick
  returns at main.cpp:503-504, so only the start-up LED report is written.

## Model

| member | source | states |
|---|---|---|
| Primitives.ToShort | main.cpp:751-754 | the `short` conversion agrees with its argument modulo 2^16 and is the identity on the `short` range |
| Primitives.ToByte | main.cpp:254 | the `uint8_t` conversion agrees with its argument modulo 256 and is the identity on 0..255 |
| Controls.Bitmap | Common.hpp:50-82 | each of the three region tables has exactly 8 entries |
| Controls.Lookup | Common.hpp:50-82 | no contract; `NonePositions` and `ExactlyOnce` state it |
| Controls.Locate | Common.hpp:50-82 | every control other than `none` is reported by the position it names |
| Controls.NonePositions | Common.hpp:50-82 | `none` occurs exactly at bits 4-5 of the left and right tables and bits 6-7 of the middle table |
| Controls.ExactlyOnce | Common.hpp:28-82 | each of the 18 non-`none` controls appears at exactly one (table, bit) position across the three tables |
| Polling.IsProController | main.cpp:175-176 | the device match accepts exactly vendor `nintendo_id` and product `procon_id` |
| Translator.PovToDpad | main.cpp:574-601 | no contract; `PovToDpadLeans` and `DiagonalsCombineNeighbours` state it |
| Translator.PovToDpadLeans | main.cpp:573-601 | each hat angle sets the d-pad directions it leans towards; neutral and other values set nothing; only the low four bits are touched |
| Translator.DiagonalsCombineNeighbours | main.cpp:573-601 | each diagonal sets exactly the union of its two neighbouring cardinal points, and a cardinal point sets a single direction |
| Translator.FaceIndex | main.cpp:616-634 | face bit k (A, B, X, Y) is set by button k in the positional layout and by the other button of its pair (1, 0, 3, 2) in the default layout |
| Translator.LayoutsSwapPairs | main.cpp:616-634 | the default layout is the positional one with A/B and X/Y exchanged, and it is its own inverse |
| Translator.MenuBits | main.cpp:602-615 | no contract; `MenuBitsExact` states it |
| Translator.MenuBitsExact | main.cpp:602-615 | buttons 9, 8, 10, 11, 4, 5, 12 set Start, Back, the stick clicks, the shoulders and Guide exactly when pressed; nothing outside 0x0010..0x0400 |
| Translator.FaceBits | main.cpp:616-634 | no contract; `FaceBitsExact` states it |
| Translator.FaceBitsExact | main.cpp:616-634 | A, B, X, Y are set exactly when the buttons the layout assigns them are pressed; nothing below 0x1000 |
| Translator.ButtonMask | main.cpp:571-634 | no contract; `ButtonMaskGroups` states it |
| Translator.ButtonMaskGroups | main.cpp:571-634 | `wButtons` is the disjoint union of hat, menu and face groups, and bit 0x0800 is never set |
| Translator.Trigger | main.cpp:694-701 | a trigger is 255 exactly when its button is pressed and 0 otherwise |
| Translator.Translate | main.cpp:571-754 | no contract; `TranslateFields` states it |
| Translator.TranslateFields | main.cpp:571-754 | `wButtons` splits into the hat, menu and face groups of the sample with 0x0800 clear; each trigger is 255 exactly when its button is pressed and 0 otherwise; each thumb axis is congruent modulo 2^16 to the recentred raw value, the vertical ones flipped |
| Translator.Horizontal | main.cpp:751-754 | `0x8000 + (short)v` taken modulo 2^16 |
| Translator.Vertical | main.cpp:751-754 | `0x7FFF - (short)v` taken modulo 2^16 |
| Translator.VerticalComplementsHorizontal | main.cpp:751-754 | for the same sample the vertical value is the bitwise complement of the horizontal one |
| Translator.CentredOnDefaultRange | main.cpp:751-754 | on 0..65535 the horizontal value is v - 32768 and the vertical one 32767 - v |
| Translator.SignedEndsWrap | main.cpp:751-754 | the ends of the `short` range wrap instead of saturating |
| Capture.Chord | main.cpp:709-746 | no contract; `PressThenRelease` states which chord is sent |
| Capture.CaptureStep | main.cpp:704-747 | no contract; `HoldingCounts`, `PressThenRelease`, `HoldingOverflows` and `WrappedCounterSendsNothing` state it over runs |
| Capture.Run | main.cpp:704-747 | no contract; `RunAppend` and `HoldingCounts` state it |
| Capture.RunAppend | main.cpp:704-747 | running two stretches of ticks in turn is running their concatenation |
| Capture.HoldingCounts | main.cpp:704-706 | while the button is held the counter grows by one per tick and nothing is sent |
| Capture.PressThenRelease | main.cpp:704-747 | a press of n ticks ends with Alt+F10 down/up if n >= 30, Alt+F1 down/up if 0 < n < 30, nothing if n = 0, and the counter back at 0 |
| Capture.HoldingOverflows | main.cpp:704-706 | holding the button until the `short` overflows wraps the counter to -32768 |
| Capture.WrappedCounterSendsNothing | main.cpp:704-747 | after the wrap, releases send nothing and leave the counter negative |
| Feedback.ScaleMotor | main.cpp:803-806 | the scaled intensity is `m*max/255` rounded down, at most `max` and at most `m`, and `m` itself when `max` is 255 |
| Feedback.ScaleMotorMonotonic | main.cpp:803-806 | scaling preserves the order of intensities |
| Feedback.UpdateLed | main.cpp:811-814 | no contract; `UpdateLedDetectsChange` and `UpdateLedAt255` state it |
| Feedback.UpdateLedDetectsChange | main.cpp:811-814 | for d < 255 a change is flagged exactly when the stored LED differs from d + 1, the stored LED becomes d + 1, and repeating d flags nothing |
| Feedback.UpdateLedAt255 | main.cpp:811-814 | for d = 255 the stored byte becomes 0 and a change is flagged on every tick |
| Feedback.LedMask | main.cpp:256 | the LED byte is the single bit 2^(led-1) for LEDs 1..8 and 0 above |
| Feedback.LedMasksDistinct | main.cpp:256 | distinct LEDs 1..8 light distinct nonzero bits |
| Feedback.LedReport | main.cpp:254-256 | no contract; `FeedbackReportsLayout` and `InitialLedReportIsLedOne` state it |
| Feedback.RumbleReport | main.cpp:262-278 | no contract; `FeedbackReportsLayout` states it |
| Feedback.InitialLedReportIsLedOne | main.cpp:907-909 | the start-up buffer is the LED report for LED 1 with sequence nibble 0 |
| Feedback.FeedbackReports | main.cpp:251-280 | no contract; `FeedbackReportsLayout` and `Polling.BlocksWriteReports` state it |
| Feedback.FeedbackReportsLayout | main.cpp:251-280 | one LED report when the LED changed, then two rumble reports when vibrating; report i carries (counter + i) mod 16; the command bytes, LED bit, bands and motor intensities are at their fixed offsets |
| Feedback.CounterAfter | main.cpp:251-280 | the counter advances by 1 per LED report plus 2 per rumble update, modulo 256 |
| Feedback.Pad | main.cpp:231-238 | no contract; `PadLayout` states it |
| Feedback.PadLayout | main.cpp:231-238 | the written buffer has length max(len, output_size), starts with the data, is zero after it, and is the data itself when the data is long enough |
| Feedback.CheckIoError | main.cpp:215-229 | an error is non-fatal exactly when it is `ERROR_DEVICE_NOT_CONNECTED` or `ERROR_OPERATION_ABORTED` |
| Polling.StreamExtends | main.cpp:231-280 | appending buffers whose sequence bytes continue the numbering keeps the output stream numbered |
| Polling.FeedbackKeepsNumbering | main.cpp:251-280 | the reports of one update, padded and appended, keep the stream numbered and the counter equal to the stream length mod 256 |
| Polling.BlocksWriteReports | main.cpp:251-280 | the LED block followed by the rumble block writes exactly the update's padded reports and leaves the counter at `CounterAfter` |
| Polling.Session.constructor | main.cpp:63-79 | a fresh session has zeroed feedback fields, counter 0, a zeroed gamepad state, empty logs, and the device's output length and the motor cap |
| Polling.Session.WriteInitialLed | main.cpp:905-914 | the start-up LED buffer is written with the current counter nibble, the counter advances by one, the LED is 1 with no change pending, and the stream stays numbered |
| Polling.Session.WriteData | main.cpp:231-238 | exactly the padded buffer is appended to the output log |
| Polling.Session.WriteLedReport | main.cpp:253-260 | the LED report for the current LED is written with the counter nibble, and the counter advances by one |
| Polling.Session.WriteRumbleReports | main.cpp:261-280 | the large-motor then the small-motor report are written with consecutive counter nibbles, and the counter advances by two |
| Polling.Session.HandleRumble | main.cpp:251-280 | the output log grows by exactly the update's padded reports, the counter becomes `CounterAfter`, `led_changed` is cleared, and the stream stays numbered |
| Polling.Session.UpdateFeedback | main.cpp:803-814 | vibrate is a != 0, the motors are the scaled b and c, and the LED and change flag follow `UpdateLed` |
| Polling.Session.SendInput | main.cpp:723-726 | the keyboard inputs passed to `SendInput` are appended, in order, to the keyboard log |
| Polling.Session.UpdateCapture | main.cpp:704-747 | the counter and the keys sent follow one `CaptureStep` |
| Polling.Session.SubmitInput | main.cpp:571-797 | the gamepad state is the translation of the sample, it is appended to the bus log, and the capture state takes one step |
| Polling.Session.ApplyFeedback | main.cpp:799-815 | the bus values are applied and exactly the resulting reports are written, keeping the stream numbered |
| Polling.Session.UpdateInputState | main.cpp:571-815 | one full tick: translation, capture step, bus submission, feedback update and report writes, with the stream kept numbered |

## Left out

- Polling.Session.UpdateInputState: models only a tick on which a sample was read. `update_input_state` returns early when `g_p_joystick` is null (main.cpp:503-504), when `Poll` fails (507-521) and when `GetDeviceState` fails (524-525), and each of these skips the capture step, `XOutputSetState` and every feedback write. The only call of `init_direct_input` is commented out (838-842), so as the file stands every tick takes the first of these returns. Those early-return ticks, which change nothing the model records, are not modelled.
- Device discovery and HID setup (SetupAPI, `CreateFile`, `HidD_*`, `HidP_GetCaps`) are OS plumbing. The session constructor takes the output report length and the motor cap as parameters. The `atoi` of the command line that sets the cap is not modelled.
- `ReadFile`/`WriteFile` and the OVERLAPPED events are left out. A write appends the padded buffer to `Session.written`. The result of `read_data` is unused by the code and not modelled.
- DirectInput enumeration, `Poll`/`Acquire` retries, the diagnostic text, the dialog procedure, the console control handler and the mutex are UI, foreign API or process lifecycle. The sample arrives as a `JoyState` parameter.
- The XOutput calls are foreign. `XOutputSetState` appends to `Session.submitted`. The four bytes of `XOutputGetState` are parameters of `ApplyFeedback`.
- The `DRIVING` branch is compiled out. It uses `double` arithmetic, and its dangling `else` toggles ZL while held.
- The `USB` branch is compiled out.
- `scoped_function`/`make_scoped` are an RAII helper with nothing to verify.
- `button_to_string` and `operator ""_uc` are declared in Common.hpp, but Controller.cpp is not part of this model.
- Translator.ButtonMask: the successive conditional `|=` statements on `wButtons` are modelled by the single or-expression they leave behind, not as a sequence of updates. Every mask is or-ed in unconditionally or not at all, so the order of the updates does not change the value.
- Feedback.LedMask: for LED 0 and LEDs from 33 up the C shift is undefined, and the model gives 0.
- Polling.Session.HandleRumble: the two `if` blocks of `handle_rumble` are the methods `WriteLedReport` and `WriteRumbleReports`. The reused rumble `buf` is a local sequence value rather than a `std::vector` edited in place.
- Polling.Session.UpdateInputState: the steps of `update_input_state` are grouped into `SubmitInput` (translation, capture, bus submission) and `ApplyFeedback` (bus read-back, feedback update, `handle_rumble`).
- The three logs (bus, keyboard, output reports) are kept apart, so the order in which a tick's entries interleave across them is not recorded.
- The `& 0x0F` of the counter is modelled as `% 16`. Both agree on the unsigned counter.
