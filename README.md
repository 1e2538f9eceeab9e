# Serial-to-MQTT bridge: line framer and session state machine

This project models the two pieces of sequential logic in the serial-to-MQTT
bridge, and proves properties about them.

- **The line framer.** `SerialService` reads from the serial device in poll
  cycles. Inside `startReading`, a pending `StringBuilder` lives across cycles.
  CR or LF ends a message. The pending text is trimmed, and the message is
  handed to the data callback only if it is non-empty. Only printable ASCII
  (32 to 126) is ever kept.
- **The main view as a state machine.** `MainView` has handlers for the broker
  connect button and the start/stop button, the stop routine, and the per-message
  callback. They work over `isRunning`, `messageCount`, `sessionStartTime`, the
  stop time, the broker client's connected flag and the enabled state of the
  start button, the connect button and the port selector. Error alerts are
  modelled as a list of the texts shown.

Modules:

- `Framing` (Framing.dfy) has two parts:
  - Java's `String.trim`, the character step `Step`, and the reference function
    `Frame` (messages and pending buffer after some input), with lemmas about them.
  - The class `LineFramer`. Its method `Feed` is the character loop, proved
    equal to `Frame`.
- `Serial` (Serial.dfy) has the class `SerialService`:
  - `Connect`, which throws when the port does not open.
  - `Disconnect`, `IsConnected` and `SetDataCallback`.
  - One poll cycle (`PollCycle`) and the poll loop over successive reads
    (`RunReadLoop`). The framer's output reaches the callback only if one is set.
- `Bridge` (Bridge.dfy) has the abstract view state `Session`, with one pure
  transition function per handler. Each function's contract states what the
  handler promises. The class `MainView` holds the real fields and a reference
  to its `SerialService`. Each handler method is proved to move `State()`
  exactly as the matching transition function says. The invariant `Valid()`
  ties `isRunning` to the reader's flag.

Collaborator outcomes are parameters. These are: whether a port is selected,
whether it opens, how the broker connect ends, and how a publish ends.
Clock readings are opaque strings. Each poll cycle's read is given as the
characters it returned.

Points of the code's behaviour worth noting:
- Start/stop is a toggle (MainView.java:409-411). A second press while running
  stops monitoring. It is not a no-op.
- The broker side is a single flag: whatever the client's `isConnected()`
  reports. The code has no separate "Connecting" or "Failed" state.
- The broker cannot be disconnected from the button while monitoring. The
  connect button is disabled while running (MainView.java:400). The broker link
  can still drop by itself; `BrokerLinkChanged` models that.
- `messageCount` is a Java `int`. `messageCount++` wraps from 2^31-1 to -2^31,
  and the model says so (`Inc32`).

## Model

| member | source | states |
|---|---|---|
| Framing.Trim | src/main/java/org/serial/serial/service/SerialService.java:85 | `trim` never lengthens its input. Its result is empty or has a character above U+0020 at both ends. |
| Framing.TrimWellFormed | src/main/java/org/serial/serial/service/SerialService.java:85 | A non-empty printable text with no space at either end is its own trim. |
| Framing.Step | src/main/java/org/serial/serial/service/SerialService.java:83-93 | One character emits at most one message, and only when it is CR or LF; that message is the trimmed buffer. CR or LF always leaves the buffer empty. Any other character appends itself when printable and leaves the buffer as it was otherwise. |
| Framing.Frame | src/main/java/org/serial/serial/service/SerialService.java:82-94 | The reference framer of a whole read emits at most one message per character of input. |
| Framing.TrimStartSpec | src/main/java/org/serial/serial/service/SerialService.java:85 | The leading half of `trim` keeps the longest suffix that does not start with a char up to U+0020; everything it drops is such a char. |
| Framing.TrimEndSpec | src/main/java/org/serial/serial/service/SerialService.java:85 | The trailing half of `trim` keeps the longest prefix that does not end with such a char; everything it drops is such a char. |
| Framing.TrimSlice | src/main/java/org/serial/serial/service/SerialService.java:85 | `trim` returns a contiguous slice of its input. Only blanks lie before and after the slice, and the slice neither starts nor ends with a blank. |
| Framing.TrimEmptyIff | src/main/java/org/serial/serial/service/SerialService.java:85-86 | A pending line trims to nothing (so nothing is emitted) exactly when all of it is blank. Both directions are proved. |
| Framing.TrimPrintable | src/main/java/org/serial/serial/service/SerialService.java:85-92 | Trimming a buffer of printable characters leaves only printable characters. |
| Framing.Printables | src/main/java/org/serial/serial/service/SerialService.java:91-92 | The characters the framer keeps are all in [32,126] and are no more than the input. |
| Framing.TerminatorClears | src/main/java/org/serial/serial/service/SerialService.java:83-90 | After CR or LF the pending buffer is empty, also when the trimmed text was empty and nothing was emitted. What is emitted is the trimmed buffer if that is non-empty, and nothing otherwise. |
| Framing.NoiseIgnored | src/main/java/org/serial/serial/service/SerialService.java:91-93 | A character that is neither CR/LF nor printable leaves the buffer unchanged and emits nothing. |
| Framing.FrameConcat | src/main/java/org/serial/serial/service/SerialService.java:65-94 | Feeding `a` and then `b` gives the same messages, in the same order, and the same final buffer as feeding `a + b`, because the buffer carries the partial line across calls. |
| Framing.FrameNoTerminator | src/main/java/org/serial/serial/service/SerialService.java:91-93 | Input without CR/LF emits nothing. It only appends its printable characters to the buffer. |
| Framing.FrameLine | src/main/java/org/serial/serial/service/SerialService.java:82-94 | A complete line (terminator-free text ending in CR or LF) emits exactly the trimmed printable text of buffer plus line, unless that is empty. The buffer is empty afterwards. |
| Framing.TerminatorsOnly | src/main/java/org/serial/serial/service/SerialService.java:83-84 | Input made only of CR/LF, fed to an empty buffer, emits no message and leaves the buffer empty. |
| Framing.StepWellFormed | src/main/java/org/serial/serial/service/SerialService.java:83-93 | One character, applied to a printable buffer, keeps the buffer printable. Any message it emits is non-empty and printable, with no space at either end. |
| Framing.FrameWellFormed | src/main/java/org/serial/serial/service/SerialService.java:84-92 | For any input, every emitted message is non-empty, all in [32,126], with no leading or trailing space. The buffer stays printable. |
| Framing.WellFormedThenCR | src/main/java/org/serial/serial/service/SerialService.java:83-89 | A well-formed line followed by CR alone emits exactly that line and leaves the buffer empty. |
| Framing.WordLine | src/main/java/org/serial/serial/service/SerialService.java:82-94 | A printable line with no blank at either end, followed by CR LF, emits exactly that line and leaves the buffer empty. |
| Framing.TrimmedExample | src/main/java/org/serial/serial/service/SerialService.java:82-89 | "  x  \r\n" emits exactly "x". |
| Framing.TwoFeedsExample | src/main/java/org/serial/serial/service/SerialService.java:65-67 | "abc\r\n" then "def\r\n", fed in two cycles, emit "abc" then "def" and leave the buffer empty. |
| Framing.LineFramer.constructor | src/main/java/org/serial/serial/service/SerialService.java:65 | A new reading task starts with an empty pending buffer. |
| Framing.LineFramer.Feed | src/main/java/org/serial/serial/service/SerialService.java:82-94 | The character loop returns exactly the messages and the new buffer that `Frame` gives for the old buffer and the data. Every message is well formed, and the buffer stays printable. |
| Serial.OpenFailure | src/main/java/org/serial/serial/service/SerialService.java:36-38 | The text of the exception thrown when the port does not open is the fixed prefix "Failed to open port: " followed by the port name. |
| Serial.Concat | src/main/java/org/serial/serial/service/SerialService.java:67-79 | The reads of successive poll cycles, joined in order. The last read is the tail of the result, and no cycles give no characters. |
| Serial.SerialService.constructor | src/main/java/org/serial/serial/service/SerialService.java:11-15 | A new service has no open port, is not reading and has no callback. |
| Serial.SerialService.Connect | src/main/java/org/serial/serial/service/SerialService.java:28-41 | If the port does not open, `connect` fails with "Failed to open port: " + name, and reading is not started and the reading task is not replaced. If it opens, reading starts with a fresh, empty buffer. The callback is untouched either way. It is called only while no reading task runs, which is how `MainView` calls it. |
| Serial.SerialService.Disconnect | src/main/java/org/serial/serial/service/SerialService.java:43-53 | After `disconnect`, the loop flag is cleared and the port is closed. The callback is kept. |
| Serial.SerialService.IsConnected | src/main/java/org/serial/serial/service/SerialService.java:109-111 | Reports whether the port of the last connect opened and has not been closed since. |
| Serial.SerialService.SetDataCallback | src/main/java/org/serial/serial/service/SerialService.java:55-57 | Sets whether a callback is present and changes nothing else. |
| Serial.SerialService.PollCycle | src/main/java/org/serial/serial/service/SerialService.java:76-95 | While reading, one cycle's data advances the buffer as `Frame` says. The framed messages reach the callback if one is set and are discarded otherwise. A stopped loop does nothing. Every delivered message is well formed. |
| Serial.SerialService.RunReadLoop | src/main/java/org/serial/serial/service/SerialService.java:63-106 | Over successive cycles, what reaches the callback and the buffer left are those of one feed of all the reads concatenated. Every delivered message is well formed. |
| Bridge.Inc32 | src/main/java/org/serial/serial/ui/MainView.java:441 | `messageCount++` on a Java int stays in int range, is one more modulo 2^32, and is exactly one more below 2^31-1. |
| Bridge.StartFailure | src/main/java/org/serial/serial/ui/MainView.java:406 | The alert after a failed start is the fixed prefix "Failed to start monitoring: " followed by the exception's message. |
| Bridge.ConnectFailure | src/main/java/org/serial/serial/ui/MainView.java:370 | The alert after a failed broker connect is the fixed prefix "Failed to connect to MQTT broker: " followed by the exception's message. |
| Bridge.Initial | src/main/java/org/serial/serial/ui/MainView.java:40-42 | The view starts idle, with count 0, the broker disconnected and the start button disabled; this state is consistent. |
| Bridge.MqttConnect | src/main/java/org/serial/serial/ui/MainView.java:345-374 | The connect button never touches the session. Afterwards the broker is connected exactly when it was not, the URL is non-empty and the connect succeeded. The start button is enabled exactly when the broker is now connected, or was already enabled and no disconnect happened. An empty URL or a failed connect is reported as an alert and nothing else changes. |
| Bridge.Stop | src/main/java/org/serial/serial/ui/MainView.java:414-431 | Stopping makes the view idle and records the stop time. It re-enables the connect button and the port selector. It keeps the count and the start time. |
| Bridge.StartStop | src/main/java/org/serial/serial/ui/MainView.java:376-412 | While running, a press is exactly `Stop`. While idle, the view runs afterwards exactly when a port was selected and it opened. A successful start sets count 0 and the given start time, resets the stop label to N/A, and disables the connect button and the port selector. With no port, or a port that fails to open, exactly one alert is added and the session is unchanged. The broker and start button are never touched. |
| Bridge.SerialData | src/main/java/org/serial/serial/ui/MainView.java:433-457 | Each message increments the count (Java int) and changes nothing else, whatever the broker state or publish outcome. The display line is `[T] WEIGHT: D`. A publish is attempted exactly when the broker is connected, with payload `{"timestamp":"T","weight":"D"}` on the given topic. It fails exactly when the client's publish throws. |
| Bridge.DisplayLine | src/main/java/org/serial/serial/ui/MainView.java:436 | The display line is `[`, the timestamp, `] WEIGHT: `, then the message. Its length is that of the two fields plus 11, the timestamp follows the `[` and the line ends with the message. |
| Bridge.Payload | src/main/java/org/serial/serial/ui/MainView.java:448-449 | The payload starts with the `{"timestamp":"` head, carries the timestamp right after it and the weight field just before the closing `"}`. Its length is that of the two fields plus the fixed text. |
| Bridge.Deliver | src/main/java/org/serial/serial/ui/MainView.java:433-457 | Successive `handleSerialData` calls give one publish result per message. Only the count changes, and it stays in int range. Every message gets a publish attempt exactly when the broker is connected. |
| Bridge.ShutdownSession | src/main/java/org/serial/serial/ui/MainView.java:495-502 | Shutdown leaves the view idle with the broker disconnected and the count kept. It records a stop time only if it was running. The start time and the start button are kept. When it was idle, the connect button and the port selector are kept too. |
| Bridge.DeliverCounts | src/main/java/org/serial/serial/ui/MainView.java:441-455 | Handling n messages in a row (below the int limit) raises the count by exactly n and changes nothing else. Failed publishes do not interrupt later messages. |
| Bridge.DeliverPublishesEach | src/main/java/org/serial/serial/ui/MainView.java:445-455 | With the broker connected, message i of a run gets a publish attempt, in order, carrying its own topic, timestamp and text, even when earlier publishes failed. |
| Bridge.PublishFailureContained | src/main/java/org/serial/serial/ui/MainView.java:452-454 | The state after a message is the same whether its publish succeeded or threw. |
| Bridge.SecondPressStops | src/main/java/org/serial/serial/ui/MainView.java:409-411 | After a successful start, the next press stops. The count is kept at 0, the start time is kept, and the stop time is recorded. |
| Bridge.SameTimestamp | src/main/java/org/serial/serial/ui/MainView.java:435-449 | The display line and the payload carry the same timestamp, and the payload's weight field is the message text unaltered. This holds when the timestamp contains no `"` or `]`. |
| Bridge.MainView.constructor | src/main/java/org/serial/serial/ui/MainView.java:47-55 | A new view is in the initial state and consistent with a new serial service. |
| Bridge.MainView.HandleMqttConnect | src/main/java/org/serial/serial/ui/MainView.java:345-374 | The handler moves the view state exactly as `MqttConnect` says and keeps `Valid()`. |
| Bridge.MainView.BrokerLinkChanged | src/main/java/org/serial/serial/service/MqttService.java:19-37 | The client's own loss or automatic recovery of the link changes only what `isConnected()` reports. |
| Bridge.MainView.UpdateSessionInfo | src/main/java/org/serial/serial/ui/MainView.java:473-479 | The stop label goes back to N/A. Nothing else changes. |
| Bridge.MainView.HandleStartStop | src/main/java/org/serial/serial/ui/MainView.java:376-412 | The handler moves the view exactly as `StartStop` says and keeps `Valid()`. A press while running closes the port and keeps the reading task's framer. A successful start reads with a callback set and a fresh, empty pending line, so no partial line carries over from the last session. A press with no port selected leaves the serial service untouched: port, reader flag, framer, pending line and callback. A press whose port does not open leaves the port closed and the framer as it was. Every press other than a successful start keeps the callback as it was. |
| Bridge.MainView.StopMonitoring | src/main/java/org/serial/serial/ui/MainView.java:414-431 | Disconnects the serial service: the reader flag is cleared, the port is closed, and the callback and framer are kept. Moves the view as `Stop` says. |
| Bridge.MainView.HandleSerialData | src/main/java/org/serial/serial/ui/MainView.java:433-457 | Returns the display line and the publish result `SerialData` gives, and moves the view to its next state. |
| Bridge.MainView.Shutdown | src/main/java/org/serial/serial/ui/MainView.java:495-502 | Moves the view as `ShutdownSession` says. A running shutdown closes the port and clears the reader flag. An idle one leaves the port and the reader flag as they were. Either way the framer and the callback are kept. |

## Left out

- Port enumeration and port configuration (baud rate, data bits, parity, timeouts) are left out: they are calls into the serial library.
- The `\r\n` poll request, the 300 ms sleep, `readBytes`, the executor, the interrupt handling, and the read-error path that only prints to stderr are left out. They are I/O and threading; each cycle's read is a parameter.
- Byte-to-character decoding with the platform charset is left out: it is a library call. The framer's input is characters.
- The data callback is taken as set or not set for a whole cycle. The code checks it again for each message, which only matters when another thread changes it mid-cycle.
- MqttService is reduced to the connected flag, whose changes are passed in, plus connect and publish outcomes given as parameters. The client id, the connect options, QoS 1 and the swallowed exception of a failed disconnect (after which the client could stay connected) are not modelled.
- LogManager (the log file, daily rotation, directory cleanup) and status-bar messages are left out. They are sinks with no effect on the bridge state.
- The JavaFX layout, styling, button texts and icons, and the start and message-count labels are left out. The `Platform.runLater` hand-off is left out too, so a message queued before a stop is handled after it in the code; the model allows that call in any state but does not model the queue.
- Clock readings and the date format are opaque strings, so "a new start time is later than the previous one" is not stated.
- The payload is not claimed to be valid JSON. It is the format string filled in as is: a message containing `"` or `\` yields a payload that is not a valid JSON string, and `SameTimestamp` reads the weight field back by position.
- Serial.SerialService.Connect: it is called only while no reading task runs. In the code, a second `connect` while reading would submit a second reading task beside the first one, and that case of two reader threads is not modelled. `MainView` never does this, because it connects only while not running, and `isRunning` matches the reader's flag.
- Bridge.MainView.BrokerLinkChanged: the link may come up in any state, including the initial one. In the code, `isConnected()` is false while no client exists (MqttService.java:76-78), and a client closed by `disconnect` (MqttService.java:56-57) never reconnects. The model does not track whether a client exists, so it allows more link changes than the code can produce.
- The button handlers require their button to be enabled (`connectEnabled`, `startEnabled`), since a disabled JavaFX button does not fire its action. The pure transition functions have no such precondition.
