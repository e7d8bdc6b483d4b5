# Arduino filter wheel adapters, modelled in Dafny

This project models the controller link of the Micro-Manager Arduino filter-wheel
device adapters. There are three device families:

- **`CArduinoFilterWheelHub` and `CArduinoFilterWheel`** (ArduinoFilterWheel.cpp/.h).
  A hub probes the controller with the text command `V` + CR. It accepts the
  answer `ArduinoFilterWheel`, optionally preceded by a line feed. It checks the
  firmware version range and keeps the last wheel position in an unsigned field.
  The seven-position wheel forwards every move through the hub as decimal text.
- **`ArduinoHub`** (ArduinoHub.cpp/.h). A hub with the binary dialect: byte 0x01
  asks for the identity `Arduino-FW`, byte 0x02 for the decimal firmware version.
  Its `Initialize`, `Shutdown` and `Busy` are stubs.
- **`ArduinoFilterWheel`** (FilterWheel.cpp/.h). A stand-alone six-position wheel
  on its own port. It range-checks moves and sends them as `pos=N` + CR. It
  reports busy for a configured delay after each move, and its port cannot change
  once it is initialized.

The modules:

| module | file | contents |
|---|---|---|
| `ErrorCodes` | errors.dfy | the status codes of the three headers |
| `Text` | text.dfy | `tolower`, `unsigned` conversions, `snprintf("%ld")` and `std::istream >> int` |
| `Serial`, `Host` | serial.dfy | the serial port as an oracle `Channel` class; the host framework's answers |
| `Detection` | detection.dfy | what both hubs' `DetectDevice` share: the lower-casing loop, the port-name test, the verdict and the probe's port settings |
| `FilterWheelHubAdapter` | filter_wheel_hub.dfy | `CArduinoFilterWheelHub` and `CArduinoFilterWheel` as classes |
| `ArduinoHubAdapter` | arduino_hub.dfy | `ArduinoHub` as a class |
| `SerialFilterWheel` | filter_wheel.dfy | `ArduinoFilterWheel` as a class |

The serial port is a `Channel` object fixed when it is made. Its k-th write
reports `writeStatusAt(k)`, and its k-th read returns `replyAt(k)`: a status and
an answer with the terminator already stripped. Every purge and write is appended
to `trace`. The port device's properties are the map `props`. Each device class
holds its channel. Each method states in its `ensures` what it sends, what it
reads, what it returns and which fields change. These are stated in terms of
functions of the oracle:

- `ControllerVersion` and `ArduinoVersion` for the two handshakes;
- `DetectionOutcome` and `ProbeSettings` for detection;
- `LabelTable` and `MoveCommand` for the stand-alone wheel.

Lemmas about those functions state what the adapter promises.

The model follows the code in these places:

- `ArduinoFilterWheel::OnState` (FilterWheel.cpp:196-197) caches the position
  whatever `SendSerialCommand` reports.
- Both `DetectDevice`s put back only `AnswerTimeout` after the probe. Handshaking
  stays off, and the baud rate, stop bits and character delay stay as the probe set
  them.
- The `V` dialect reports version 1 on every accepted answer, so the hub's
  `ERR_VERSION_MISMATCH` branch can never be taken after a successful handshake
  (`HandshakeVersionSupported`).
- `ArduinoHub::OnPort` is declared in ArduinoHub.h, but its body is not part of the
  source. The model sets `ArduinoHub.port` directly. `ArduinoHub` never sets
  `initialized_`.
- `CArduinoFilterWheel::Busy` returns `busy_`, which nothing raises. The model keeps
  this as the class invariant `Valid()`.

## Model

| member | source | states |
|---|---|---|
| ErrorCodes.HubErrorCodesDistinct | ArduinoFilterWheel.h:35-43 | the nine hub error codes 101..109 (the same values as ArduinoHub.h:16-24) are pairwise distinct, and none of them is DEVICE_OK |
| ErrorCodes.WheelUnknownPositionCollides | FilterWheel.h:38-39 | the stand-alone wheel's ERR_UNKNOWN_POSITION is 103: the same number as the hubs' ERR_WRITE_FAILED, and not their ERR_UNKNOWN_POSITION |
| Text.ToUnsigned32 | ArduinoFilterWheel.h:79 | passing a `long` to an `unsigned` parameter keeps 0..2^32-1 and adds 2^32 to a negative value |
| Text.ToUnsigned64 | FilterWheel.h:72 | comparing a `long` with the `unsigned long` numPos_ converts it modulo 2^64: non-negative values stay, negative ones gain 2^64 |
| Text.Lowered | ArduinoFilterWheel.cpp:166-169 | lower-casing keeps the port name's length |
| Text.LoweredMatches | ArduinoHub.cpp:156-161 | comparing the lower-cased port name with a lower-case word is the same as comparing the name with that word ignoring case |
| Text.DecimalText | FilterWheel.cpp:194 | `%ld` text is non-empty, starts with '-' exactly for a negative value, and is otherwise all digits |
| Text.ParseInt | FilterWheel.h:46-53 | the extraction always stores a value within the range of `int` |
| Text.ParseWithoutDigits | FilterWheel.h:46-53 | a text without a digit is read as 0 |
| Text.ParseDecimalText | ArduinoHub.cpp:138-139 | reading the decimal text of any `int` gives back that value |
| Text.ParseSkipsLeadingSpace | ArduinoHub.cpp:138-139 | the extraction skips leading white space: the number read is the same with or without it |
| Text.DecimalTextInjective | FilterWheel.cpp:121-124 | different numbers have different decimal texts |
| Text.DigitRunOfDigits | ArduinoHub.cpp:138-139 | the digit run of a number's digits is the whole text, and its value is the number |
| Serial.Channel.Write | ArduinoFilterWheel.cpp:150 | a write returns the port's status for it and records the data sent; the read position and the port settings do not change |
| Serial.Channel.ReadAnswer | ArduinoHub.cpp:119 | a read returns the next answer and its status; nothing is sent and the settings do not change |
| Serial.Channel.PurgeComPort | ArduinoHub.cpp:184 | a purge is recorded and changes nothing else |
| Serial.Channel.SetProperty | ArduinoHub.cpp:169-174 | setting a port property changes that key only and sends nothing |
| Serial.Channel.GetProperty | ArduinoHub.cpp:165 | reading a port property returns the stored value |
| Detection.UsablePortName | ArduinoHub.cpp:156-161 | a port name is probed exactly when it is not empty and equals neither "undefined" nor "unknown", ignoring case |
| Detection.LowerCase | ArduinoHub.cpp:156-159 | the in-place loop over a copy of the port name yields `tolower` applied to every character |
| Detection.DetectionOutcome | ArduinoFilterWheel.cpp:159-205 | CanCommunicate exactly when the hub is initialized, or the port name is usable and the handshake succeeds; Misconfigured exactly when the hub is not initialized and the name is empty, "undefined" or "unknown" in any case |
| Detection.ProbeSettings | ArduinoHub.cpp:165-198 | after a probe, handshaking is off, the baud rate is the dialect's, stop bits are 1 and the character delay is 0; AnswerTimeout is back to its recorded value and every other property is unchanged |
| Detection.ProbeSettingsIdempotent | ArduinoFilterWheel.cpp:175-208 | probing a second time leaves the port settings as the first probe did |
| Detection.DefaultPortNameMisconfigured | ArduinoFilterWheel.cpp:94 | the constructors' default port "Undefined" (and "UNKNOWN", and "") is refused, so an uninitialized hub on it is Misconfigured |
| Detection.NamedPortIsProbed | ArduinoHub.cpp:160-161 | a real port name such as "COM7" passes the port-name test |
| FilterWheelHubAdapter.CreateDevice | ArduinoFilterWheel.cpp:57-68 | the hub for its name, the wheel for its name, nothing for a null or any other name |
| FilterWheelHubAdapter.ControllerVersion | ArduinoFilterWheel.cpp:109-143 | ERR_NO_PORT_SET without a port; the write's or the read's error as it is; ERR_BOARD_NOT_FOUND for any other answer; DEVICE_OK exactly for one of the two identity answers; version 1 on success and 0 otherwise |
| FilterWheelHubAdapter.HandshakeVersionSupported | ArduinoFilterWheel.cpp:40-41 | a successful handshake always reports a version within [0, 1] |
| FilterWheelHubAdapter.WheelLabelsCoverPositions | ArduinoFilterWheel.cpp:374-394 | the wheel's labels cover exactly positions 0..6, one label each, all different |
| FilterWheelHubAdapter.FilterWheelHub.constructor | ArduinoFilterWheel.cpp:75-78 | a new hub is uninitialized, has no port available and has last state 0 |
| FilterWheelHubAdapter.FilterWheelHub.Busy | ArduinoFilterWheel.cpp:105-107 | the hub is never busy |
| FilterWheelHubAdapter.FilterWheelHub.SetFilterWheelState | ArduinoFilterWheel.h:79-80 | after storing a state, `GetFilterWheelState` returns it; no other field changes |
| FilterWheelHubAdapter.FilterWheelHub.GetControllerVersion | ArduinoFilterWheel.cpp:109-143 | the result is `ControllerVersion` of the port's answers; "V" + CR is sent only when a port is set; an answer is read only after a successful write |
| FilterWheelHubAdapter.FilterWheelHub.WriteToComPortH | ArduinoFilterWheel.cpp:145-152 | sends the command with CR and returns the write's status |
| FilterWheelHubAdapter.FilterWheelHub.DetectDevice | ArduinoFilterWheel.cpp:158-216 | the verdict is `DetectionOutcome` of the handshake; an initialized hub or an unusable port name touches nothing; a probe leaves the port in `ProbeSettings` at 9600 baud after a purge and the handshake, and has made one write when a port is set and one read after a successful write |
| FilterWheelHubAdapter.FilterWheelHub.Initialize | ArduinoFilterWheel.cpp:218-254 | returns the first failure among name property, handshake, version range and status update; the version is stored; the port sees a purge and the handshake's one write and at most one read; "Verbose" is set and the hub initialized only when all succeed |
| FilterWheelHubAdapter.FilterWheelHub.DetectInstalledDevices | ArduinoFilterWheel.cpp:256-276 | offers the wheel exactly when detection reports CanCommunicate, and always returns DEVICE_OK; the port is left as `DetectDevice` leaves it |
| FilterWheelHubAdapter.FilterWheelHub.Shutdown | ArduinoFilterWheel.cpp:278-282 | clears initialized and returns DEVICE_OK, so a second call changes nothing |
| FilterWheelHubAdapter.FilterWheelHub.OnPortBeforeGet | ArduinoFilterWheel.cpp:287-288 | shows the port name |
| FilterWheelHubAdapter.FilterWheelHub.OnPortAfterSet | ArduinoFilterWheel.cpp:289-291 | takes the new port name and marks the port available |
| FilterWheelHubAdapter.FilterWheelHub.OnVersionBeforeGet | ArduinoFilterWheel.cpp:297-305 | shows the stored version |
| FilterWheelHubAdapter.FilterWheel.constructor | ArduinoFilterWheel.cpp:311-334 | a new wheel is not busy, uninitialized, at position 6 |
| FilterWheelHubAdapter.FilterWheel.GetNumberOfPositions | ArduinoFilterWheel.h:106 | the number of positions is exactly the number of labelled positions 0..6 |
| FilterWheelHubAdapter.FilterWheel.Busy | ArduinoFilterWheel.cpp:345-351 | reports `busy_`, which is never raised, so the wheel is never busy |
| FilterWheelHubAdapter.FilterWheel.Initialize | ArduinoFilterWheel.cpp:353-426 | ERR_NO_PORT_SET without a hub with a port, labels untouched; otherwise the seven labels are set and the result is the first failing property call or the status update; initialized only on success |
| FilterWheelHubAdapter.FilterWheel.Shutdown | ArduinoFilterWheel.cpp:428-434 | clears initialized and returns DEVICE_OK |
| FilterWheelHubAdapter.FilterWheel.OnStateBeforeGet | ArduinoFilterWheel.cpp:441-447 | ERR_NO_PORT_SET without a hub with a port; otherwise shows the cached position, with no serial traffic |
| FilterWheelHubAdapter.FilterWheel.OnStateAfterSet | ArduinoFilterWheel.cpp:436-485 | as written: without a hub with a port nothing changes; otherwise the timer restarts, position and hub state become `pos` (the hub's modulo 2^32) before the decimal text is written, and the write's status is returned, so a failed write keeps the new cache; exactly one write and no read |
| FilterWheelHubAdapter.FilterWheel.OnStateAfterSetChecked | ArduinoFilterWheel.cpp:459-479 | corrected: a position outside 0..6 is refused with ERR_UNKNOWN_POSITION; the cache changes only after a successful write; a valid move makes exactly one write and no read and leaves the port settings alone; a wheel and hub that agreed on the position still agree |
| FilterWheelHubAdapter.ReadyScenario | ArduinoFilterWheel.cpp:218-254 | a hub on "COM7" whose controller identifies itself initializes with version 1, and a move to 3 is cached and sent as "3" + CR after the purge and "V" + CR |
| FilterWheelHubAdapter.WrongBoardScenario | ArduinoFilterWheel.cpp:137-139 | a controller answering anything else gives ERR_BOARD_NOT_FOUND, the hub stays uninitialized, detection says CanNotCommunicate and AnswerTimeout is restored |
| FilterWheelHubAdapter.NegativePositionAsWritten | ArduinoFilterWheel.cpp:473-476 | a move to -1 that reaches the handler is accepted: the wheel caches -1 and the hub's unsigned state becomes 2^32-1 |
| FilterWheelHubAdapter.NegativePositionChecked | ArduinoFilterWheel.cpp:459-463 | with the range check, -1 is refused and a later move to 3 leaves wheel and hub agreeing on 3 |
| FilterWheelHubAdapter.FailedMoveAsWritten | ArduinoFilterWheel.cpp:473-479 | a move to 3 whose write fails returns the write error, yet wheel and hub both claim position 3 |
| FilterWheelHubAdapter.FailedMoveChecked | ArduinoFilterWheel.cpp:473-479 | with the cache updated after the write, the failed move leaves the wheel at 6 and the hub at 0 |
| ArduinoHubAdapter.CreateDevice | ArduinoHub.cpp:38-49 | the hub for "Arduino-Hub", the wheel for "Arduino-Filter-Wheel", nothing for a null or any other name |
| ArduinoHubAdapter.ArduinoVersion | ArduinoHub.cpp:108-142 | each write's or read's error is returned as it is; an identity other than "Arduino-FW" gives ERR_BOARD_NOT_FOUND; DEVICE_OK exactly when both exchanges succeed and the identity matches, with the version read from the second answer, and 0 otherwise |
| ArduinoHubAdapter.ArduinoVersionReportsFirmware | ArduinoHub.cpp:127-141 | a board that identifies itself and answers the decimal text of v is reported with version v |
| ArduinoHubAdapter.ArduinoHub.constructor | ArduinoHub.cpp:72-101 | a new hub is uninitialized, has no port available and has last state 0 |
| ArduinoHubAdapter.ArduinoHub.Initialize | ArduinoHub.cpp:56-58 | always returns 0 |
| ArduinoHubAdapter.ArduinoHub.Busy | ArduinoHub.cpp:60-62 | never busy |
| ArduinoHubAdapter.ArduinoHub.Shutdown | ArduinoHub.cpp:64-66 | always returns 0 |
| ArduinoHubAdapter.ArduinoHub.SetFilterWheelState | ArduinoHub.h:67-73 | after storing a state, `GetFilterWheelState` returns it; no other field changes |
| ArduinoHubAdapter.ArduinoHub.GetArduinoVersion | ArduinoHub.cpp:108-142 | the result is `ArduinoVersion` of the port's answers; byte 0x02 is sent only after the identity was confirmed; one write per byte sent, and one read per successful write; the settings do not change |
| ArduinoHubAdapter.ArduinoHub.DetectDevice | ArduinoHub.cpp:148-206 | the verdict is `DetectionOutcome` of the handshake; an unusable port name touches nothing; a probe leaves the port in `ProbeSettings` at 57600 baud after a purge and the handshake, with the handshake's writes and reads counted |
| ArduinoHubAdapter.DetectScenario | ArduinoHub.cpp:148-206 | a board on "COM7" that identifies itself is detected; the wire carries purge, 0x01, 0x02; AnswerTimeout is back to "300.0" |
| ArduinoHubAdapter.VersionScenario | ArduinoHub.cpp:138-139 | the version answer "2" is read as 2 |
| SerialFilterWheel.CreateDevice | FilterWheel.cpp:43-53 | the wheel exactly for "Arduino Filter Wheel" |
| SerialFilterWheel.LabelTable | FilterWheel.cpp:113-124 | position 0 is "Home" and positions 1..last are "Filter i"; there is a label for exactly 0..last |
| SerialFilterWheel.LabelTableDistinct | FilterWheel.cpp:113-124 | no two positions share a label |
| SerialFilterWheel.CorrectedLabels | FilterWheel.cpp:121 | corrected: the labelled positions are exactly the ones `OnState` accepts |
| SerialFilterWheel.MoveCommand | FilterWheel.cpp:192-194 | the command is "pos=" followed by at least one character, digits only for a position that is not negative |
| SerialFilterWheel.MoveCommandDecodes | FilterWheel.cpp:192-196 | the move command is "pos=" followed by text that reads back as the position |
| SerialFilterWheel.Rejects | FilterWheel.cpp:187 | a negative position is always refused and a position in 0..numPos-1 never |
| SerialFilterWheel.RejectsExactlyOutOfRange | FilterWheel.cpp:187 | for every `long`, the test with the `unsigned long` numPos_ rejects exactly the positions outside 0..numPos-1 |
| SerialFilterWheel.ArduinoFilterWheel.constructor | FilterWheel.cpp:65-78 | a new wheel is uninitialized, at position 0, with timer 0 and an empty port |
| SerialFilterWheel.ArduinoFilterWheel.GetNumberOfPositions | FilterWheel.h:66 | the number of positions n is such that a move passes the range test exactly for 0..n-1 |
| SerialFilterWheel.ArduinoFilterWheel.Initialize | FilterWheel.cpp:89-147 | returns at once when initialized; returns the name or description failure with nothing changed; otherwise restarts the timer, adds `LabelTable(numPos)` and returns the first failing call; initialized exactly on success |
| SerialFilterWheel.ArduinoFilterWheel.LabelPositions | FilterWheel.cpp:113-124 | the labelling loop adds exactly `LabelTable(numPos)` to the labels |
| SerialFilterWheel.ArduinoFilterWheel.Busy | FilterWheel.cpp:149-153 | busy exactly until the delay, in milliseconds, converted to microseconds, has passed since the last state change; never busy after a change with no delay |
| SerialFilterWheel.ArduinoFilterWheel.Shutdown | FilterWheel.cpp:156-162 | clears initialized and returns DEVICE_OK, so it is idempotent |
| SerialFilterWheel.ArduinoFilterWheel.OnStateBeforeGet | FilterWheel.cpp:169-171 | shows the cached position, with no serial traffic |
| SerialFilterWheel.ArduinoFilterWheel.OnStateAfterSet | FilterWheel.cpp:174-200 | always restarts the timer; a position outside 0..numPos-1 returns ERR_UNKNOWN_POSITION, reverts the property to the cached position and touches neither cache nor port; a valid one sends "pos=N" + CR and is cached |
| SerialFilterWheel.ArduinoFilterWheel.OnCOMPortBeforeGet | FilterWheel.cpp:204-205 | shows the port |
| SerialFilterWheel.ArduinoFilterWheel.OnCOMPortAfterSet | FilterWheel.cpp:206-211 | before initialization the port takes the new value; afterwards it keeps the old one |
| SerialFilterWheel.ArduinoFilterWheel.InitializeFilterWheel | FilterWheel.cpp:217-228 | sends "sensors=0" + CR and "pos?" + CR, and caches the number read from the answer, 0 when there is none; two writes and one read, with the settings unchanged |
| SerialFilterWheel.SettleWindow | FilterWheel.cpp:149-153 | right after a move the wheel is busy for any positive delay, and it is idle once the delay has elapsed |
| SerialFilterWheel.IdleStaysIdle | FilterWheel.cpp:149-153 | once idle, the wheel stays idle until the next move |
| SerialFilterWheel.MoveScenario | FilterWheel.cpp:168-201 | a move to 3 is cached and shown; the wheel is busy at once and idle after the delay; a move to -1 is refused and keeps 3 |
| SerialFilterWheel.UnreachableLabelScenario | FilterWheel.cpp:121-124 | after `Initialize`, position 6 carries "Filter 6", yet a move to 6 is refused |

## Left out

- Serial byte I/O is the oracle `Channel`. Terminators, time-outs and partial reads are not modelled; each read yields a whole answer or an error status.
- The host framework is left out: property creation, `SetPropertyLimits`, `UpdateStatus` and property actions. The statuses that steer early returns are parameters (`HostCalls`). The bounds that `SetPropertyLimits` puts on the wheel's State property (ArduinoFilterWheel.cpp:411) are therefore not enforced in the model. The handlers are modelled for every value that reaches them.
- `GetCoreCallback()->GetDevice`, and `pS->Initialize()`/`pS->Shutdown()` on the port device, are left out. The source uses the pointer `GetDevice` returns without a null check (ArduinoFilterWheel.cpp:186-187,206; ArduinoHub.cpp:176-177,196). The model assumes instead that a probed port name names a serial port device: `DetectDevice` and `DetectInstalledDevices` require `channel.IsSerialPort()` only when they probe. What happens on a null device is not modelled.
- Each device holds one `Channel`, fixed when it is made. `OnPort`/`OnCOMPort` change the port name but not the device the name would select, so moving a hub or wheel to another port is not modelled.
- `CDeviceUtils::SleepMs` delays, logging, `printf`, the static `MMThreadLock` and the `catch (...)` handlers are left out. Each exchange is treated as atomic and total.
- Time and the delay setting are integer parameters (`now`, `delayMs`). `MMTime` and the floating-point product are not modelled.
- `InitializeModuleData`, `DeleteDevice`, `GetName`, `SupportsDeviceDetection` and the error-text setup are registration glue, so they are left out.
- `ArduinoHub::DetectInstalledDevices` only calls the framework's base-class default, so it is left out.
- `CArduinoFilterWheelHub::Initialize` creates the version property; that call's status is ignored, so it is left out.
- `FilterWheelHubAdapter.FilterWheel.OnStateAfterSet`: the wheel's `%d` formatting of a `long` position (ArduinoFilterWheel.cpp:470) is modelled as the full decimal text. Truncation to 32 bits and the 16-byte buffer limit are not modelled.
- `SerialFilterWheel.ArduinoFilterWheel.InitializeFilterWheel`: the source reads up to "\n" and ignores the read status. The model reads one answer and treats a failed read as the empty text. Nothing in the source calls this method.
- `from_string` (FilterWheel.h:46-53) is modelled directly as `Text.ParseInt`, following the C++11 semantics of extraction: 0 on failure and clamping to the `int` range.
- `ArduinoHub::OnPort` and `OnLogic` have no body in the source, so they are not part of this model.
- The `CArduinoFilterWheelHub` constructor leaves `version_` uninitialized; the model's field holds an arbitrary value until `Initialize`.

## Findings

| source | as written | input that shows it | evidently intended | confidence | as-written member | corrected member |
|---|---|---|---|---|---|---|
| ArduinoFilterWheel.cpp:473-479 | `position_` and the hub's `filterWheelState_` are set to the new position before `WriteToComPortH`, and nothing reverts them when the write fails | a move to 3 on a port whose write reports ERR_WRITE_FAILED: the handler returns 103, but the wheel and the hub both report position 3 | the cache changes only after a successful write, so a failed move leaves wheel and hub at the old position | not executed; medium | FilterWheelHubAdapter.FailedMoveAsWritten | FilterWheelHubAdapter.FilterWheel.OnStateAfterSetChecked |
| FilterWheel.cpp:121-124 | labels are created for positions 1..numPos_ (1..6), while `OnState` accepts only 0..numPos_-1 (0..5) | after `Initialize`, position 6 is labelled "Filter 6", and setting position 6 returns ERR_UNKNOWN_POSITION | one label per position that `OnState` accepts | not executed; medium | SerialFilterWheel.UnreachableLabelScenario | SerialFilterWheel.CorrectedLabels |
