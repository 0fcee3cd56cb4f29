# Android serial port library: connection, registry and proxy

A Dafny model of the core of an Android serial-port library: one connection per
serial line (`EasySerialPortImpl`), the process-wide registry of open lines keyed by
name (`SerialPortService`), the handle the registry gives out (`EasySerialPortServiceProxy`),
and the line descriptor value (`SerialPortDescriptor`).

Files and modules:

- `java_types.dfy`, module `JavaTypes`: Java `byte` and `int` as `int8` and `int32`, 32-bit
  wrap-around, and the exceptions the code lets escape (`Error`). A call that returns or
  throws is an `Outcome` or a `Result`.
- `decimal.dfy`, module `Decimal`: the decimal text of an `int`, and a parser that reads it back.
- `descriptor.dfy`, module `Descriptors`: the descriptor value, its three constructors and `toString`.
- `connection.dfy`, module `Connection`: the read event and listener types, the unsigned
  byte conversion, the class `EasySerialPortImpl` and its static `open` factories.
- `service.dfy`, module `Service`: a pure model of which names are registered after a
  sequence of open and close requests; the class `SerialPortService`; the class
  `EasySerialPortServiceProxy`.
- `clients.dfy`, module `Clients`: callers that combine the contracts. They cover a read of
  `0x01 0xFF 0x00` delivered as `[1, 255, 0]`, an empty read delivering nothing, a read
  delivered after `stopReceive`, a write reaching the stream, closing twice,
  a duplicate open, two failed opens followed by a successful retry, two proxies closing
  one port, and a stale proxy closing a newer connection of the same name.

How the native side is represented:

- The native `SerialPort` and its two streams are opaque `Handle`s.
- `new SerialPort(file, baudrate, flags)` asks the native driver for the device. The
  driver is one `Driver` object shared by every connection. Its `calls` log records each
  such request, granted or not, so a discarded or repeated device open is visible.
- Every call the connection makes on them is appended to the field `trace`. That covers
  acquiring the device, closing a stream or the line, the three writes, flush and read.
  Order and arguments are observable this way.
- Whether a native call succeeds is a parameter of the method that makes it: `grant`,
  `inputCloseFails`, `writeFails`, and so on.
- A listener is an opaque `ListenerId`. Its `onReadComplete` calls are appended, as
  `Delivery(listener, event)`, to the connection's `delivered` log. `ReceivedBy(log, l)` is
  what listener `l` has seen.
- The boolean `receiving` records only whether the field `executorService` is non-null.
  The ghost counter `loops` records how many receive loops `startReceive` has launched.
- One pass of a receive loop's `while (connected)` is `ReceiveStep(read)`, where `read` is
  what `in.read(buffer)` produced. It is a pass of one of the `loops` launched loops, so it
  requires `loops > 0`: a connection whose `startReceive` was never called reads nothing.
  It does not depend on `receiving`.
- A failed registry open schedules a task. The model records it as a `Retry` entry
  holding the descriptor, the delay 3000 and the unit `Seconds`. `RunRetry` runs the
  oldest pending entry.

What the code does, as modelled. Several points differ from what one might expect of
such a library:

- `close` closes the input stream first, then the output stream, then the line.
- `close` never resets `connected`, and it does not null the line field, so a second
  `close` closes the line again. A stream whose close throws keeps its field.
- `closeSerialPort` does not stop the receive worker.
- `stopReceive` without a worker dereferences null. It is modelled as `Fail(NullPointer)`.
- `stopReceive` does not stop the receive loop. `executorService.shutdown()` does not
  interrupt a running task, and the loop runs `while (connected)`, which nothing clears.
  So reads go on being delivered after `stopReceive`, and a later `startReceive`
  launches a second loop beside the first (`Clients.StopReceiveLeavesLoopRunning`).
- The proxy's `open`, `close` and `addListener` return the wrapped connection, not the
  proxy. A caller chaining on that result bypasses the registry.
- The proxy has no reference counting. Its `close` closes whatever the registry holds
  under the wrapped port's name, so a proxy kept from an earlier registration closes
  a newer connection of that name (`Clients.StaleProxyClosesNewerConnection`).
- The retry delay is 3000 in `TimeUnit.SECONDS`, i.e. 50 minutes.
- `write(b, off, len)` logs `Arrays.copyOfRange(b, off, len)` before writing. That call
  treats `len` as an end index, so it throws `IllegalArgumentException` when `off > len`,
  even for ranges the stream accepts. For example, one byte at index 2 of a four-byte array
  is refused (`LogRejectsValidRange`). The subtraction `len - off` is done in 32-bit
  arithmetic, as in the JDK. `LogRangeCheck` proves that for a range the stream accepts,
  the write gets through exactly when `off <= len`.

## Model

| member | source | states |
|---|---|---|
| `Decimal.ParseIntToString` | serial-port/src/main/java/cn/featherfly/android/serialport/SerialPortDescriptor.java:81-83 | the decimal text that string concatenation gives an `int` reads back as that `int`, negative values included |
| `Descriptors.FromAll` | serial-port/src/main/java/cn/featherfly/android/serialport/SerialPortDescriptor.java:45-76 | the three-argument constructor stores name, baud rate and flags exactly as given, with no validation, and the getters return them |
| `Descriptors.FromNameBaudrate` | serial-port/src/main/java/cn/featherfly/android/serialport/SerialPortDescriptor.java:34-36 | the two-argument constructor keeps name and baud rate and sets flags to 0 |
| `Descriptors.FromName` | serial-port/src/main/java/cn/featherfly/android/serialport/SerialPortDescriptor.java:11-26 | the one-argument constructor gives baud rate 9600 and flags 0 |
| `Descriptors.TailReadsBack` | serial-port/src/main/java/cn/featherfly/android/serialport/SerialPortDescriptor.java:81-83 | the text after the name parses back to exactly the baud rate and flags |
| `Descriptors.ToString` | serial-port/src/main/java/cn/featherfly/android/serialport/SerialPortDescriptor.java:78-85 | `toString` is the head `SerialPortDescriptor{name='`, then the name verbatim, then a tail from which `baudrate` and `flags` read back exactly |
| `Descriptors.ToStringInjective` | serial-port/src/main/java/cn/featherfly/android/serialport/SerialPortDescriptor.java:78-85 | two descriptors with the same text have the same name, baud rate and flags, even when a name contains the labels. This is field equality: the class does not override `equals` |
| `Connection.ToUnsignedInt` | serial-port/src/main/java/cn/featherfly/android/serialport/EasySerialPortImpl.java:326-328 | `x & 0xff` after sign extension lies in 0..255 and is `x` for `x >= 0` and `x + 256` otherwise |
| `Connection.UnsignedRoundTrip` | serial-port/src/main/java/cn/featherfly/android/serialport/EasySerialPortImpl.java:326-328 | the conversion loses nothing: the `(byte)` cast inverts it, and each value in 0..255 comes from exactly one byte |
| `Connection.Unsigned` | serial-port/src/main/java/cn/featherfly/android/serialport/EasySerialPortImpl.java:309-312 | the converted read has one value per byte, in order, each the unsigned value of its byte |
| `Connection.Deliveries` | serial-port/src/main/java/cn/featherfly/android/serialport/EasySerialPortImpl.java:313-315 | one dispatch makes one call per registered listener, in list order, all with the same event |
| `Connection.DeliveriesReceivedBy` | serial-port/src/main/java/cn/featherfly/android/serialport/EasySerialPortImpl.java:313-315 | in one dispatch a listener receives the event once per registration and nothing else |
| `Connection.DispatchOnce` | serial-port/src/main/java/cn/featherfly/android/serialport/EasySerialPortImpl.java:313-315 | after a dispatch, what each listener has received is what it had before plus the event once per registration |
| `Connection.AppendedListenerReceives` | serial-port/src/main/java/cn/featherfly/android/serialport/EasySerialPortImpl.java:223-226 | there is no duplicate check: once a listener is appended, every later dispatch gives it the event one more time, and every other listener as often as before |
| `Connection.LogRangeCheck` | serial-port/src/main/java/cn/featherfly/android/serialport/EasySerialPortImpl.java:247-249 | for a range the output stream accepts, the log's `copyOfRange(b, off, len)` succeeds exactly when `off <= len` |
| `Connection.LogRejectsValidRange` | serial-port/src/main/java/cn/featherfly/android/serialport/EasySerialPortImpl.java:248 | a range the stream accepts (offset 2, length 1, array of 4) is refused by the log statement with `IllegalArgumentException` |
| `Connection.EventOf` | serial-port/src/main/java/cn/featherfly/android/serialport/EasySerialPortImpl.java:306-316 | a read yields an event exactly when it returned at least one byte; the event carries the port's name and `size` values in 0..255 |
| `Connection.EasySerialPortImpl.constructor` | serial-port/src/main/java/cn/featherfly/android/serialport/EasySerialPortImpl.java:50-57 | the scratch buffer is fresh, zero-filled and exactly `bufferSize` long; not connected, no streams, no worker, no listeners |
| `Connection.EasySerialPortImpl.Open` | serial-port/src/main/java/cn/featherfly/android/serialport/EasySerialPortImpl.java:133-146 | asks the shared driver once for the descriptor's path, baud rate and flags, which the driver's log records whether granted or not; on success line and both streams are present and `connected` holds; a refusal throws and leaves the line, the streams and `connected` as they were |
| `Connection.EasySerialPortImpl.StartReceive` | serial-port/src/main/java/cn/featherfly/android/serialport/EasySerialPortImpl.java:160-167 | when the executor field is null, sets it and launches one more receive loop; otherwise launches nothing. No other field changes |
| `Connection.EasySerialPortImpl.StopReceive` | serial-port/src/main/java/cn/featherfly/android/serialport/EasySerialPortImpl.java:174-180 | clears a present executor field; with none it fails with a null dereference. The loop already running is not stopped: the loop count and `connected` are unchanged |
| `Connection.EasySerialPortImpl.CloseInput` | serial-port/src/main/java/cn/featherfly/android/serialport/EasySerialPortImpl.java:195-204 | closes a present input stream, which becomes absent only if that close succeeded; an absent stream is skipped |
| `Connection.EasySerialPortImpl.CloseOutput` | serial-port/src/main/java/cn/featherfly/android/serialport/EasySerialPortImpl.java:206-215 | the same for the output stream |
| `Connection.EasySerialPortImpl.Close` | serial-port/src/main/java/cn/featherfly/android/serialport/EasySerialPortImpl.java:187-193 | closes input, then output, then the line; stream failures are swallowed; `connected`, the line field, worker and listeners are unchanged; fails only when the line is null |
| `Connection.EasySerialPortImpl.AddListener` | serial-port/src/main/java/cn/featherfly/android/serialport/EasySerialPortImpl.java:223-226 | appends the listener at the end of the list and returns the same connection |
| `Connection.EasySerialPortImpl.Write` | serial-port/src/main/java/cn/featherfly/android/serialport/EasySerialPortImpl.java:234-237 | the value reaches the output stream unchanged; a null stream throws and nothing is written |
| `Connection.EasySerialPortImpl.WriteRange` | serial-port/src/main/java/cn/featherfly/android/serialport/EasySerialPortImpl.java:247-250 | the log's `copyOfRange` failure comes first and nothing reaches the stream; otherwise `(b, off, len)` reaches the stream unchanged, which refuses a range outside `b` |
| `Connection.EasySerialPortImpl.WriteArray` | serial-port/src/main/java/cn/featherfly/android/serialport/EasySerialPortImpl.java:258-261 | the whole array reaches the output stream unchanged |
| `Connection.EasySerialPortImpl.Flush` | serial-port/src/main/java/cn/featherfly/android/serialport/EasySerialPortImpl.java:268-270 | the flush reaches the output stream; a null stream throws |
| `Connection.EasySerialPortImpl.ReceivedData` | serial-port/src/main/java/cn/featherfly/android/serialport/EasySerialPortImpl.java:309-312 | the filled `receive` array is the unsigned conversion of the first `size` bytes of the buffer |
| `Connection.EasySerialPortImpl.Notify` | serial-port/src/main/java/cn/featherfly/android/serialport/EasySerialPortImpl.java:313-315 | the for-each delivers the event to every listener in list order and adds nothing else |
| `Connection.EasySerialPortImpl.ReceiveStep` | serial-port/src/main/java/cn/featherfly/android/serialport/EasySerialPortImpl.java:297-322 | a pass runs only on a loop that `startReceive` launched (`loops > 0`); the loop continues exactly while `connected`; with an input stream it reads into the buffer, and a read of `size > 0` bytes delivers one event of the name and the unsigned values to each listener in order; end of stream, an empty read, an error or a null stream deliver nothing |
| `Connection.OpenWith` | serial-port/src/main/java/cn/featherfly/android/serialport/EasySerialPortImpl.java:114-116 | a negative buffer size throws and the driver is never asked; otherwise the driver is asked exactly once; a refusal throws; otherwise a fresh connection in the just-opened state |
| `Connection.OpenDescriptor` | serial-port/src/main/java/cn/featherfly/android/serialport/EasySerialPortImpl.java:102-104 | the same with the default buffer of 512 bytes |
| `Connection.OpenNameBaudSize` | serial-port/src/main/java/cn/featherfly/android/serialport/EasySerialPortImpl.java:91-93 | the descriptor gets the name, the baud rate and flags 0 |
| `Connection.OpenNameBaud` | serial-port/src/main/java/cn/featherfly/android/serialport/EasySerialPortImpl.java:78-80 | the descriptor gets flags 0 and the buffer 512 bytes |
| `Connection.OpenName` | serial-port/src/main/java/cn/featherfly/android/serialport/EasySerialPortImpl.java:66-68 | the descriptor gets baud rate 9600 and flags 0 and the buffer 512 bytes |
| `Service.RegisteredIff` | serial-port/src/main/java/cn/featherfly/android/serialport/service/SerialPortService.java:115-144 | after any sequence of opens and closes, a name is registered exactly when it was registered before and never closed since, or it was opened successfully and not closed afterwards (both directions) |
| `Service.UntouchedNameKept` | serial-port/src/main/java/cn/featherfly/android/serialport/service/SerialPortService.java:115-144 | requests that neither open nor close a name leave its membership alone |
| `Service.SerialPortService.constructor` | serial-port/src/main/java/cn/featherfly/android/serialport/service/SerialPortService.java:32 | the table starts empty, with no pending retries |
| `Service.SerialPortService.OpenSerialPort` | serial-port/src/main/java/cn/featherfly/android/serialport/service/SerialPortService.java:115-131 | registered names change as the name model says. A present name changes nothing and asks the driver nothing. An absent name asks the driver exactly once. After a successful open there is one fresh entry under the descriptor's name, with the descriptor, buffer 512, connected, executor set and one receive loop launched. A failed open changes no entry and appends exactly one retry of the same descriptor after 3000 seconds. Existing entries keep their connections |
| `Service.SerialPortService.RunRetry` | serial-port/src/main/java/cn/featherfly/android/serialport/service/SerialPortService.java:127-129 | removes the oldest pending retry and does to its descriptor exactly what `openSerialPort` does: the same key set, driver request, new entry and rescheduling on failure |
| `Service.SerialPortService.CloseSerialPort` | serial-port/src/main/java/cn/featherfly/android/serialport/service/SerialPortService.java:138-144 | removes exactly the named entry after closing its connection, and leaves the rest unchanged; an absent name is a no-op. The closed connection keeps its line field, `connected`, executor, loops, listeners and deliveries |
| `Service.SerialPortService.GetSerialPort` | serial-port/src/main/java/cn/featherfly/android/serialport/service/SerialPortService.java:152-159 | a new proxy over the registered connection exactly when the name is present, else null; the table is not modified; under the registry invariant the proxy's name is the requested name |
| `Service.EasySerialPortServiceProxy.constructor` | serial-port/src/main/java/cn/featherfly/android/serialport/service/EasySerialPortServiceProxy.java:13-16 | keeps the service and the wrapped connection |
| `Service.EasySerialPortServiceProxy.Name` | serial-port/src/main/java/cn/featherfly/android/serialport/service/EasySerialPortServiceProxy.java:30-32 | the wrapped connection's name |
| `Service.EasySerialPortServiceProxy.Baudrate` | serial-port/src/main/java/cn/featherfly/android/serialport/service/EasySerialPortServiceProxy.java:35-37 | the wrapped connection's baud rate |
| `Service.EasySerialPortServiceProxy.Open` | serial-port/src/main/java/cn/featherfly/android/serialport/service/EasySerialPortServiceProxy.java:19-21 | has the connection's `open` effect, including the one request to the driver. It returns the wrapped connection itself, not the proxy, on success, and the exception on a refusal. The registry's table and retries are untouched |
| `Service.EasySerialPortServiceProxy.Close` | serial-port/src/main/java/cn/featherfly/android/serialport/service/EasySerialPortServiceProxy.java:24-27 | the registry drops the entry of the wrapped connection's name, whatever connection it holds; a second close of that name changes nothing; the closed connection keeps its line field, `connected`, listeners and deliveries; returns the wrapped connection, not the proxy |
| `Service.EasySerialPortServiceProxy.Write` | serial-port/src/main/java/cn/featherfly/android/serialport/service/EasySerialPortServiceProxy.java:40-42 | the connection's `write(b)` effect and result; the registry invariant is kept, not required |
| `Service.EasySerialPortServiceProxy.WriteRange` | serial-port/src/main/java/cn/featherfly/android/serialport/service/EasySerialPortServiceProxy.java:45-47 | the connection's `write(b, off, len)` effect and result, arguments unchanged; the registry invariant is kept, not required |
| `Service.EasySerialPortServiceProxy.WriteArray` | serial-port/src/main/java/cn/featherfly/android/serialport/service/EasySerialPortServiceProxy.java:50-52 | the connection's `write(b)` effect on the whole array; the registry invariant is kept, not required |
| `Service.EasySerialPortServiceProxy.Flush` | serial-port/src/main/java/cn/featherfly/android/serialport/service/EasySerialPortServiceProxy.java:55-57 | the connection's `flush` effect and result; the registry invariant is kept, not required |
| `Service.EasySerialPortServiceProxy.AddListener` | serial-port/src/main/java/cn/featherfly/android/serialport/service/EasySerialPortServiceProxy.java:60-62 | appends to the wrapped connection's listeners and returns the wrapped connection, not the proxy; the registry invariant is kept, not required |

## Left out

- Native device access: the JNI `SerialPort` and its streams are opaque handles, and
  each native call's success or failure is a parameter. Device configuration, file
  descriptors and actual byte transfer are foreign code.
- Threads and executors: the cached thread pool, the concurrent receive worker and the
  scheduled executor are not modelled. The executor field is a presence flag, the
  launched loops a ghost counter, and one loop pass is a method; the interleaving of that pass with `close` or `addListener` on another
  thread is not modelled.
- The scheduler's own timing: a retry is a recorded entry with its delay and unit.
  `RunRetry` takes the oldest one, in the order the equal delays would fire.
- Android service plumbing (`bind`, `unbind`, `stop`, `onCreate`, `onStartCommand`,
  `onDestroy`, the binder): framework lifecycle. The model assumes `onCreate` has run.
  Before it, the scheduled executor is null and a failed open would throw rather than
  schedule.
- `serialPortMap` is a static field shared by every service instance. The model has one
  registry object and does not model two service instances sharing it.
- Logging (`Log.i`, `Log.e`, the log tag, `toHexString` output) is not behaviour and is
  left out. The one exception is the `copyOfRange` failure inside `write(b, off, len)`'s
  log argument, which is modelled.
- Null arguments (a null descriptor, a null array passed to `write`) and running out of
  memory in the log's array copy are not modelled.
- `getBufferSize`, `isConnected`, `getName` and `getBaudrate` on the connection are plain
  reads (`bufferSize`, `IsConnected`, `Name`, `Baudrate`) without contracts of their own.
- ReceiveStep: the `int[]` that one read creates is shared by all the events of that read.
  In the model the data is an immutable sequence, so a listener that changed the array
  for the listeners after it is not captured.
- ReceiveStep: a listener's `onReadComplete` is assumed to return normally. The loop's
  `try` catches only `IOException`. In the source, an unchecked exception thrown by a
  listener skips the listeners after it for that read, and it ends `ReceiveThread.run`,
  so that receive loop stops for good. The model does not capture this.
- OpenWith: `NegativeArraySizeException` is reported before the connection object exists.
  The class constructor itself therefore requires a non-negative size.
- Connection.EasySerialPortImpl.Open, StartReceive, StopReceive, Close: the `return this`
  used for chaining is not modelled (an `Outcome` says whether the call threw). The
  connection's `addListener`, and the proxy's `open`, `close` and `addListener`, do
  return the wrapped connection in the model.
- StopReceive: the `isShutdown()` test is always false for a present executor, because
  every shutdown is followed at once by clearing the field. The model treats a present
  worker as not shut down.
- Service.SerialPortService.OpenSerialPort, RunRetry and CloseSerialPort, and
  Service.EasySerialPortServiceProxy.Close, require the registry's invariant `Valid()`.
  The invariant is that every entry is connected, receiving, has a line and is keyed by
  its own name. The registry's constructor establishes it, and each of these operations
  keeps it. GetSerialPort does not require it; only its statement that the proxy's name
  is the requested name is conditional on it. The proxy's forwarding methods do not
  require it, and they keep it when it held. Code holding the raw
  connection can break the invariant, for example by calling `stopReceive` on it, and
  after that the proxy's `close` cannot be called in the model.
