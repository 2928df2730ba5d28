# Robotic arm controller: connection lifecycle and slider commands

This project models the logic at the centre of a small Android remote control for a
robotic arm. The app connects over Bluetooth RFCOMM to a paired device. It then sends a
short text command each time the user releases one of four joint sliders.

The model covers three source files:

- `MainViewModel` (module `ViewModel`, with its state machine on values in module
  `ConnectionState`). It holds the current socket and a `connecting` flag. `connect` closes
  and clears the held socket, sets `connecting` and starts a connection thread. The
  thread's completion is launched in `viewModelScope`. It clears `connecting`, stores
  whatever socket the thread delivered and reports `socket != null`. `onCleared` closes
  the held socket; clearing also cancels `viewModelScope`, after which completions no
  longer run.
- `BluetoothConnectionThread` (module `ConnectionThread`). It creates an RFCOMM socket for
  the serial-port service UUID and connects it. If `connect()` throws, it closes the
  socket. It always hands its local `socket` variable to `onComplete`.
- `MainActivity` (modules `Commands` and `Activity`). It covers:
  - the command string `"s${i + 1}$value"` and the list of four arm parts;
  - the `enabled` rules for sliders and device cards;
  - `sendBluetooth`;
  - the connect callback that hides the device sheet.

Module `Sockets` abstracts the platform socket. A `BluetoothSocket` is a class with
`isOpen` and `isConnected` fields and an idempotent `Close`. Whether `connect()` and the
output stream's `write` succeed is an input to the model.

The background thread becomes explicit method calls. `MainViewModel.Connect` returns the
thread. `BluetoothConnectionThread.Run(b)` runs it for a given behaviour `b`
(`CreateFails | ConnectFails | Succeeds`). `MainViewModel.Deliver(socket)` is the thread's
`onComplete`: it runs the completion lambda unless `viewModelScope` is cancelled.
Overlapping attempts become ordinary sequences of calls. The class keeps
a ghost `model` of type `ConnectionState.State`. `Valid()` ties that model to the class's
fields and to the status of every socket delivered so far. Each method's `ensures` equates
the new `model` with the corresponding function of `ConnectionState` applied to the old one.

The model follows the code as written, including behaviours that the code's own evident
intent contradicts:

- **A failed `connect()` is reported as success.** The catch block closes the socket but
  leaves the local variable non-null. The closed socket is therefore delivered, and the
  view model reports `socket != null`, which is `true`. The device sheet is dismissed, and
  the sliders stay disabled because the held socket is not connected. The callback's
  parameter is named `success` and its failure branch shows "Failed to connect to device"
  (MainActivity.kt:146-153), yet this failure never reaches that branch. See
  `ConnectionThread.ConnectFailureDeliversClosedSocket`,
  `Activity.FailedConnectReportedAsSuccess` and `Activity.ConnectOnce`.
- **A stale completion overwrites the held socket without closing it.** `connect` closes
  the held socket before it starts a new attempt (MainViewModel.kt:31), so it evidently
  means to own at most one socket. A completion, however, stores its socket without closing
  the one held before. The only guard is that device cards are disabled while `connecting`.
  The model proves that "at most one open socket" holds for every sequence of steps that
  respects this guard (`ConnectionState.AtMostOneOpenSocket`). It also exhibits the leak
  when the guard is bypassed: `ConnectionState.StaleCompletionLeaksSocket` on values and
  `Activity.OverlappingAttempts` on the objects. The first completion also clears
  `connecting` while the second attempt is still running
  (`ConnectionState.ConnectingClearedWhileAttemptInFlight`).
- **An attempt in flight when the view model is cleared leaks its socket.** `onCleared`
  closes only the held socket. The thread is not stopped, and the completion it launches
  never runs because `viewModelScope` is cancelled, so the socket it connected stays open
  with no owner (`ConnectionState.ClearedWhileConnectingLeaksSocket`,
  `Activity.ClearedWhileConnecting`). With the card guard, that socket is still the only
  open one.

## Model

| member | source | states |
|---|---|---|
| Sockets.BluetoothSocket.constructor | app/src/main/java/com/example/controller/BluetoothConnectionThread.kt:25 | a newly created RFCOMM socket is open, not connected, and bound to the given device and service UUID |
| Sockets.BluetoothSocket.Connect | app/src/main/java/com/example/controller/BluetoothConnectionThread.kt:26 | connect succeeds only if the platform accepts and the socket is still open; on success the socket is connected, and on failure (the IOException) nothing changes |
| Sockets.BluetoothSocket.Close | app/src/main/java/com/example/controller/MainViewModel.kt:31 | after close the socket is neither open nor connected, whatever its state before |
| Sockets.SocketStatus.Close | app/src/main/java/com/example/controller/BluetoothConnectionThread.kt:29 | a closed socket is neither open nor connected, which is a valid status |
| Sockets.CloseIsIdempotent | app/src/main/java/com/example/controller/MainViewModel.kt:45-47 | closing twice is the same as closing once, so closing a socket that `connect` or an earlier `onCleared` already closed is harmless |
| ServiceUuid.FromShortUuid | app/src/main/java/com/example/controller/BluetoothConnectionThread.kt:17 | a 16-bit short UUID expands to a 36-character UUID: the Bluetooth Base UUID's head "0000", then the value's four hexadecimal digits, most significant first, then the Base UUID's tail |
| ServiceUuid.FromShortUuidInjective | app/src/main/java/com/example/controller/BluetoothConnectionThread.kt:17 | two different short UUIDs never expand to the same full UUID, so the service UUID names exactly one short UUID |
| ServiceUuid.SerialPortUuidIsShortUuid | app/src/main/java/com/example/controller/BluetoothConnectionThread.kt:17 | the fixed service UUID 00001101-0000-1000-8000-00805F9B34FB is the Serial Port Profile short UUID 0x1101 in the Bluetooth Base UUID |
| ConnectionThread.Delivered | app/src/main/java/com/example/controller/BluetoothConnectionThread.kt:21-34 | the socket reaching `onComplete` is null iff creation threw; a delivered socket is open and connected iff both steps succeeded |
| ConnectionThread.ConnectFailureDeliversClosedSocket | app/src/main/java/com/example/controller/BluetoothConnectionThread.kt:28-32 | when connect() throws after creation, a non-null socket is still delivered, and it is closed and not connected |
| ConnectionThread.BluetoothConnectionThread.constructor | app/src/main/java/com/example/controller/BluetoothConnectionThread.kt:10-13 | a new attempt is bound to the given device |
| ConnectionThread.BluetoothConnectionThread.Run | app/src/main/java/com/example/controller/BluetoothConnectionThread.kt:21-34 | `onComplete` runs exactly once on every path; its argument is null iff creation threw; otherwise it is the fresh socket for this device and the serial-port UUID, in the status `Delivered` gives, so already closed when connect() threw |
| ConnectionState.Initial | app/src/main/java/com/example/controller/MainViewModel.kt:22-28 | a new view model holds no socket, is not connecting and has no attempt in flight |
| ConnectionState.CloseHeld | app/src/main/java/com/example/controller/MainViewModel.kt:31 | the held socket, if any, ends closed, and every other socket and field is unchanged |
| ConnectionState.Connect | app/src/main/java/com/example/controller/MainViewModel.kt:30-43 | after `connect` the previously held socket is closed, nothing is held, `connecting` is true and one more attempt is in flight; no other socket changes |
| ConnectionState.Complete | app/src/main/java/com/example/controller/MainViewModel.kt:35-40 | completion always clears `connecting`; the held socket becomes exactly the delivered one; earlier sockets are untouched, so the one held before is not closed; the reported result is true iff a socket was delivered |
| ConnectionState.Deliver | app/src/main/java/com/example/controller/MainViewModel.kt:35-40 | the thread's callback launches the completion lambda in `viewModelScope`: before the view model is cleared the lambda runs (held socket, `connecting`, report as `Complete`); after, it never runs, so the delivered socket is recorded but not held, `connecting` and the held socket keep their values and no result is reported; either way one attempt fewer is in flight |
| ConnectionState.OnCleared | app/src/main/java/com/example/controller/MainViewModel.kt:45-47 | `onCleared` closes the held socket if there is one and changes no other socket; the field, `connecting` and the attempts in flight keep their values; the view model is marked cleared (its scope cancelled) |
| ConnectionState.Step | app/src/main/java/com/example/controller/MainViewModel.kt:30-47 | each step (connect, delivery of an attempt's socket with a given behaviour, clear) keeps the held index inside the list of sockets |
| ConnectionState.Run | app/src/main/java/com/example/controller/MainViewModel.kt:30-47 | running any feasible sequence of steps keeps the state well formed |
| ConnectionState.OpenCountOfOnlyOpen | app/src/main/java/com/example/controller/MainViewModel.kt:22 | if only the held socket may be open, at most one socket is open, and exactly one iff the held socket is open |
| ConnectionState.GuardedRunDisciplined | app/src/main/java/com/example/controller/MainViewModel.kt:30-47 | if connect is never requested while `connecting`, every step preserves the invariant: at most one attempt in flight and nothing held while connecting; before clearing, `connecting` iff an attempt is in flight and no open socket except the held one; after clearing, the held socket closed and at most one open socket, which exists only once the last attempt has delivered; so at most one socket is ever open |
| ConnectionState.AtMostOneOpenSocket | app/src/main/java/com/example/controller/MainViewModel.kt:30-47 | starting from a new view model, any sequence of steps that respects the card guard leaves at most one socket open, and until the view model is cleared that socket is the held one |
| ConnectionState.ConnectingIffAttemptInFlight | app/src/main/java/com/example/controller/MainActivity.kt:173 | under the card guard, an attempt in flight implies `connecting`, and until the view model is cleared `connecting` implies an attempt in flight, so `!connecting` means no attempt is in progress |
| ConnectionState.ConnectingClearedWhileAttemptInFlight | app/src/main/java/com/example/controller/MainViewModel.kt:37 | after two connects and one completion, `connecting` is false although the second attempt is still in flight |
| ConnectionState.CompletionOverwritesWithoutClosing | app/src/main/java/com/example/controller/MainViewModel.kt:38 | a completion that arrives while an open socket is held leaves that socket open and no longer held, which breaks the no-leak invariant |
| ConnectionState.StaleCompletionLeaksSocket | app/src/main/java/com/example/controller/MainViewModel.kt:35-40 | connect, connect, then two successful completions is a feasible sequence that bypasses the card guard and ends with two open sockets, only the second of them held |
| ConnectionState.ClearedWhileConnectingLeaksSocket | app/src/main/java/com/example/controller/MainViewModel.kt:36-47 | connect, clear, then a successful attempt is a sequence that respects the card guard and ends with one open, connected socket that the view model does not hold, and no result reported |
| ConnectionState.Guarded | app/src/main/java/com/example/controller/MainActivity.kt:173 | the card guard as a property of a sequence of steps: no connect is requested while `connecting` is set |
| ViewModel.MainViewModel.constructor | app/src/main/java/com/example/controller/MainViewModel.kt:22-28 | a new view model holds no socket and is not connecting; its abstract state is `Initial()` |
| ViewModel.MainViewModel.Connect | app/src/main/java/com/example/controller/MainViewModel.kt:30-43 | the previously held socket object is closed; then the socket field is null and `connecting` is true; a thread for the device is started; the abstract state moves by `ConnectionState.Connect` |
| ViewModel.MainViewModel.Deliver | app/src/main/java/com/example/controller/MainViewModel.kt:35-40 | before clearing: `connecting` is false, the socket field is exactly the delivered socket, the report is `Some(socket != null)`; after clearing: both fields keep their values and nothing is reported; the previously held object is never touched; the abstract state moves by `ConnectionState.Deliver` |
| ViewModel.MainViewModel.OnCleared | app/src/main/java/com/example/controller/MainViewModel.kt:45-47 | the scope is cancelled; the held socket object, if any, ends closed, and both fields keep their values; the abstract state moves by `ConnectionState.OnCleared` |
| Commands.Decimal | app/src/main/java/com/example/controller/MainActivity.kt:130 | Kotlin's decimal rendering of a non-negative Int is a numeral (digits only, no leading zero) of one digit exactly when the number is below 10 |
| Commands.ValueOfDecimal | app/src/main/java/com/example/controller/MainActivity.kt:130 | reading a rendered number back gives the number |
| Commands.DecimalOfValue | app/src/main/java/com/example/controller/MainActivity.kt:130 | rendering the value of a numeral gives the numeral back |
| Commands.Command | app/src/main/java/com/example/controller/MainActivity.kt:130 | a slider command starts with 's' and has at least three characters |
| Commands.ParseCommand | app/src/main/java/com/example/controller/MainActivity.kt:125-130 | a string that parses gives a part index within the four parts and a value within 0..100 |
| Commands.CommandShape | app/src/main/java/com/example/controller/MainActivity.kt:125-130 | with four parts and a value in 0..100, the character after 's' is the part number '1'..'4', the rest is the value's numeral, and the command has 3 to 5 characters |
| Commands.ParseCommandOfCommand | app/src/main/java/com/example/controller/MainActivity.kt:130 | every command a slider can send parses back to its part index and value |
| Commands.CommandOfParseCommand | app/src/main/java/com/example/controller/MainActivity.kt:130 | every string that parses is exactly the command for what it parses to |
| Commands.CommandInjective | app/src/main/java/com/example/controller/MainActivity.kt:125-130 | two different (part, value) pairs never give the same command |
| Activity.SlidersEnabledAgrees | app/src/main/java/com/example/controller/MainActivity.kt:128 | sliders are enabled iff the held socket exists and reports connected, on the object and on its abstract state alike |
| Activity.SlidersEnabled | app/src/main/java/com/example/controller/MainActivity.kt:128 | the sliders' `enabled`: a socket is held and reports connected |
| Activity.CardsEnabled | app/src/main/java/com/example/controller/MainActivity.kt:173 | the device cards' `enabled`: `connecting` is not set |
| Activity.CardsEnabledAgrees | app/src/main/java/com/example/controller/MainActivity.kt:173 | device cards are enabled iff the abstract state is not connecting |
| Activity.SlidersEnabledOnlyOnOpenHeldSocket | app/src/main/java/com/example/controller/MainActivity.kt:128 | under the card guard, enabled sliders mean that no attempt is in progress and that the held socket is open and the only open socket |
| Activity.FailedConnectReportedAsSuccess | app/src/main/java/com/example/controller/MainActivity.kt:146-153 | a completion after connect() threw reports success, yet the held socket is closed and the sliders are disabled |
| Activity.ReportedSuccessIffSocketCreated | app/src/main/java/com/example/controller/MainViewModel.kt:39 | the reported result is true iff socket creation succeeded, and the sliders become enabled iff the whole attempt succeeded |
| Activity.SendBluetooth | app/src/main/java/com/example/controller/MainActivity.kt:106-113 | nothing is written iff no socket is held; a held, connected socket with a write that succeeds gets exactly the value; anything written is exactly the value, on a connected socket; otherwise the write throws and the failure is swallowed as `WriteFailed` |
| Activity.Sliders | app/src/main/java/com/example/controller/MainActivity.kt:125-133 | one slider per arm part, in order, each carrying its 0-based index, every one enabled iff the held socket reports connected |
| Activity.OnValueChangeFinished | app/src/main/java/com/example/controller/MainActivity.kt:129-131 | releasing slider i at value v writes exactly `Command(i, v)` when a connected socket is held and the write succeeds; anything written parses back to that slider's index and value; nothing is written iff no socket is held |
| Activity.ConnectButton.constructor | app/src/main/java/com/example/controller/MainActivity.kt:143 | the device sheet starts hidden |
| Activity.ConnectButton.OnClick | app/src/main/java/com/example/controller/MainActivity.kt:157 | the Connect button shows the device sheet |
| Activity.ConnectButton.OnDismissRequest | app/src/main/java/com/example/controller/MainActivity.kt:164 | dismissing hides the device sheet |
| Activity.ConnectButton.OnConnectResult | app/src/main/java/com/example/controller/MainActivity.kt:146-153 | on success the sheet is hidden and no notice is shown; on failure the sheet keeps its state and the failure notice is shown |
| Activity.ConnectOnce | app/src/main/java/com/example/controller/MainActivity.kt:145-154 | one click on a card followed by the attempt's completion: success is reported and the sheet hidden unless creation threw; the notice appears only then; the sliders are enabled only if both steps succeeded; the cards are disabled while the attempt is in flight and enabled after |
| Activity.OverlappingAttempts | app/src/main/java/com/example/controller/MainViewModel.kt:35-40 | two connects before either attempt completes, then two successful completions, leave the first socket open and connected while the view model holds the second |
| Activity.ClearedWhileConnecting | app/src/main/java/com/example/controller/MainViewModel.kt:36-47 | clearing the view model while an attempt is in flight, then a successful attempt: the delivered socket is open and connected, the view model holds nothing and no result is reported |

## Left out

- Compose layout, `ModalBottomSheet`, `Slider` rendering, previews and the theme: these are user-interface rendering only.
- The permission request and gate (MainActivity.kt:77-104): this is a platform call, and the model assumes that the permission is granted.
- `pairedDevices` (MainViewModel.kt:18-20): it only reads the platform's bonded-device set. Devices are opaque `BluetoothDevice` values.
- The real `createRfcommSocketToServiceRecord`, `connect()` and `outputStream.write`: these are platform calls. Their outcomes are inputs (`AttemptBehaviour`, `succeeds`, `writeSucceeds`).
- `Thread.start` and `viewModelScope.launch`: these are concurrency. Each delivery and the completion it launches are one atomic `Deliver` call, which checks whether the scope is cancelled. A completion launched before the view model is cleared but not yet run when it is cleared is treated as having run. The socket an attempt creates enters the view model's list of sockets only when it is delivered.
- Sockets.BluetoothSocket.Close: `close()` is modelled as never throwing, although the platform declares `IOException`. A throw at BluetoothConnectionThread.kt:29 would skip the log line, still run `onComplete` in `finally`, and then escape `run()`. A throw at MainViewModel.kt:31 would abort `connect` before it clears the field or sets `connecting`. A throw at MainViewModel.kt:46 would escape `onCleared`. None of these paths is modelled.
- Activity.SendBluetooth: a write to a socket that is open but not connected is treated as throwing. No held socket is ever in that state (held sockets are either connected or closed).
- The float slider value and `roundToInt` (MainActivity.kt:229-233): these are floating point. Values are integers in 0..100.
- `Log.d` and `Toast`: these are side-effect output only. The toast is the `failureNotice` result.
- Activity.SendBluetooth: does not model the UTF-8 encoding of `toByteArray`; it records the characters written. Commands consist of 's' and digits, so each character is one byte.
- ViewModel.MainViewModel.Connect: the order "close first, then clear" is in the body and cannot be stated in a postcondition, which describes only the final state.
