/** EasySerialPortImpl: one serial line, its streams, its receive worker and its listeners,
    with the read event and listener types of the EasySerialPort interface. */
module Connection {

  import opened JavaTypes
  import opened Descriptors

  /** Scratch buffer size when none is given. */
  const DEFAULT_BUFFER_SIZE: int32 := 512

  // ---------------------------------------------------------------------------
  // Events and listeners

  /** SerialPortReadEvent: the port's name and the unsigned values of one read. */
  datatype ReadEvent = ReadEvent(port: string, data: seq<int>)

  /** An opaque SerialReadListener. */
  datatype ListenerId = ListenerId(id: nat)

  /** One call of `listener.onReadComplete(event)`. */
  datatype Delivery = Delivery(listener: ListenerId, event: ReadEvent)

  /** toUnsignedInt: `((int) x) & 0xff`. Sign extension followed by the mask keeps the
      low eight bits of the two's-complement pattern, which is `x` modulo 256. */
  function ToUnsignedInt(x: int8): (r: int)
    ensures 0 <= r < 256
    ensures r == if x >= 0 then x as int else x as int + 256
  {
    (x as int) % 256
  }

  /** The `(byte)` cast, which keeps the low eight bits as a signed value. */
  function ToSignedByte(v: int): (b: int8) {
    var m := v % 256;
    if m < 128 then m as int8 else (m - 256) as int8
  }

  /** The unsigned conversion loses nothing: casting back gives the original byte,
      and every value in 0..255 is the conversion of exactly one byte. */
  lemma UnsignedRoundTrip(x: int8, v: int)
    ensures ToSignedByte(ToUnsignedInt(x)) == x
    ensures 0 <= v < 256 ==> ToUnsignedInt(ToSignedByte(v)) == v
  {
  }

  /** The values a read of `bytes` delivers, one per byte, in order. */
  function Unsigned(bytes: seq<int8>): (r: seq<int>)
    ensures |r| == |bytes|
    ensures forall i :: 0 <= i < |bytes| ==> r[i] == ToUnsignedInt(bytes[i]) && 0 <= r[i] < 256
  {
    if bytes == [] then [] else Unsigned(bytes[..|bytes| - 1]) + [ToUnsignedInt(bytes[|bytes| - 1])]
  }

  /** The calls one dispatch makes: `event` to each listener, in list order. */
  function Deliveries(listeners: seq<ListenerId>, event: ReadEvent): (r: seq<Delivery>)
    ensures |r| == |listeners|
    ensures forall i :: 0 <= i < |listeners| ==> r[i] == Delivery(listeners[i], event)
  {
    if listeners == [] then []
    else Deliveries(listeners[..|listeners| - 1], event) + [Delivery(listeners[|listeners| - 1], event)]
  }

  /** The events `l` has received according to `log`, in order. */
  function ReceivedBy(log: seq<Delivery>, l: ListenerId): seq<ReadEvent> {
    if log == [] then []
    else
      var last := log[|log| - 1];
      ReceivedBy(log[..|log| - 1], l) + (if last.listener == l then [last.event] else [])
  }

  /** How often `l` is registered. */
  function Count(listeners: seq<ListenerId>, l: ListenerId): nat {
    if listeners == [] then 0
    else Count(listeners[..|listeners| - 1], l) + (if listeners[|listeners| - 1] == l then 1 else 0)
  }

  function Repeat(e: ReadEvent, n: nat): seq<ReadEvent> {
    if n == 0 then [] else Repeat(e, n - 1) + [e]
  }

  lemma {:induction false} ReceivedByAppend(a: seq<Delivery>, b: seq<Delivery>, l: ListenerId)
    ensures ReceivedBy(a + b, l) == ReceivedBy(a, l) + ReceivedBy(b, l)
    decreases |b|
  {
    if b != [] {
      assert (a + b)[..|a + b| - 1] == a + b[..|b| - 1];
      ReceivedByAppend(a, b[..|b| - 1], l);
    } else {
      assert a + b == a;
    }
  }

  lemma {:induction false} DeliveriesReceivedBy(listeners: seq<ListenerId>, e: ReadEvent, l: ListenerId)
    ensures ReceivedBy(Deliveries(listeners, e), l) == Repeat(e, Count(listeners, l))
    decreases |listeners|
  {
    if listeners != [] {
      var d := Deliveries(listeners, e);
      assert d[..|d| - 1] == Deliveries(listeners[..|listeners| - 1], e);
      DeliveriesReceivedBy(listeners[..|listeners| - 1], e, l);
    }
  }

  /** One dispatch adds, to what each listener has received, the event once per
      registration of that listener and nothing else. */
  lemma DispatchOnce(before: seq<Delivery>, listeners: seq<ListenerId>, e: ReadEvent, l: ListenerId)
    ensures ReceivedBy(before + Deliveries(listeners, e), l) == ReceivedBy(before, l) + Repeat(e, Count(listeners, l))
  {
    ReceivedByAppend(before, Deliveries(listeners, e), l);
    DeliveriesReceivedBy(listeners, e, l);
  }

  /** addListener does not check for duplicates: once `added` is appended, every later
      dispatch hands `l` the event once more if `l` is `added`, and as often as before otherwise. */
  lemma AppendedListenerReceives(listeners: seq<ListenerId>, added: ListenerId, e: ReadEvent, l: ListenerId)
    ensures ReceivedBy(Deliveries(listeners + [added], e), l)
         == ReceivedBy(Deliveries(listeners, e), l) + (if added == l then [e] else [])
  {
  }

  // ---------------------------------------------------------------------------
  // The native line

  /** An opaque native object: the SerialPort, its input stream or its output stream. */
  datatype Handle = Handle(id: nat)

  /** What `new SerialPort(file, baud, flags)` yields when the driver grants the device. */
  datatype Native = Native(line: Handle, input: Handle, output: Handle)

  /** What one `in.read(buffer)` produces: bytes (of which there may be none),
      end of stream (-1), or an IOException. */
  datatype ReadOutcome = Bytes(bytes: seq<int8>) | EndOfStream | ReadFailed

  /** One call the connection makes on the native layer. */
  datatype NativeCall =
    | Acquire(path: string, baudrate: int32, flags: int32)
    | CloseStream(stream: Handle)
    | CloseLine(line: Handle)
    | WriteByte(stream: Handle, b: int32)
    | WriteRange(stream: Handle, bytes: seq<int8>, off: int32, len: int32)
    | WriteAll(stream: Handle, bytes: seq<int8>)
    | Flush(stream: Handle)
    | Read(stream: Handle)

  /** The calls `close()` makes: input stream, then output stream, then the line;
      a null field is skipped. */
  function CloseCalls(input: Option<Handle>, output: Option<Handle>, line: Option<Handle>): seq<NativeCall> {
    (if input.Some? then [CloseStream(input.value)] else [])
      + (if output.Some? then [CloseStream(output.value)] else [])
      + (if line.Some? then [CloseLine(line.value)] else [])
  }

  /** A stream field after closeInput/closeOutput: null once its close succeeded, kept when
      its close threw. */
  function AfterClose(stream: Option<Handle>, closeFails: bool): Option<Handle> {
    if stream.Some? && !closeFails then None else stream
  }

  /** What `Arrays.copyOfRange(b, from, to)` throws, if anything, for an array of length `n`.
      The new length `to - from` is computed in 32-bit arithmetic. */
  function CopyOfRangeError(n: nat, from: int32, to: int32): Option<Error> {
    if Wrap32(to as int - from as int) < 0 then Some(IllegalArgument)
    else if from < 0 || from as int > n then Some(IndexOutOfBounds)
    else None
  }

  /** The range check of `OutputStream.write(b, off, len)`. */
  predicate StreamAcceptsRange(n: nat, off: int32, len: int32) {
    0 <= off && 0 <= len && off as int + len as int <= n
  }

  /** For a range the output stream accepts, the log statement of `write(b, off, len)`
      passes exactly when `off <= len`: it reads `len` as an end index, not a count. */
  lemma LogRangeCheck(n: nat, off: int32, len: int32)
    requires n < 0x8000_0000
    requires StreamAcceptsRange(n, off, len)
    ensures CopyOfRangeError(n, off, len).None? <==> off <= len
  {
  }

  /** A range the output stream would take, refused before it gets there:
      the single byte at index 2 of a four-byte array. */
  lemma LogRejectsValidRange()
    ensures StreamAcceptsRange(4, 2, 1) && CopyOfRangeError(4, 2, 1) == Some(IllegalArgument)
  {
  }

  /** The event one read delivers, if any: a read of at least one byte. */
  function EventOf(name: string, read: ReadOutcome): (e: Option<ReadEvent>)
    ensures e.Some? <==> read.Bytes? && |read.bytes| > 0
    ensures e.Some? ==> (&& e.value.port == name && |e.value.data| == |read.bytes|
                         && forall i :: 0 <= i < |read.bytes| ==>
                              e.value.data[i] == ToUnsignedInt(read.bytes[i]) && 0 <= e.value.data[i] < 256)
  {
    if read.Bytes? && |read.bytes| > 0 then Some(ReadEvent(name, Unsigned(read.bytes))) else None
  }

  /** The call `new SerialPort(file, baudrate, flags)` for a descriptor. */
  function AcquireOf(d: SerialPortDescriptor): NativeCall {
    Acquire(d.name, d.baudrate, d.flags)
  }

  /** The native driver, shared by every connection in the process. It records each device
      open asked of it, granted or not, in order. */
  class Driver {
    var calls: seq<NativeCall>

    constructor ()
      ensures calls == []
    {
      calls := [];
    }
  }

  // ---------------------------------------------------------------------------
  // The connection

  class EasySerialPortImpl {
    const descriptor: SerialPortDescriptor
    const bufferSize: int32
    /** The scratch buffer every read fills; allocated once. */
    const buffer: array<int8>

    var serialPort: Option<Handle>
    var input: Option<Handle>
    var output: Option<Handle>
    var connected: bool
    /** Whether the field `executorService` is non-null. It does not say whether a
        receive loop runs: shutting the executor down leaves a running loop alone. */
    var receiving: bool
    /** How many receive loops were launched so far. A loop runs while `connected`, which
        nothing clears, so none of them ends as long as every listener's onReadComplete
        returns normally (a listener that throws would end the loop it runs on). */
    ghost var loops: nat
    var listeners: seq<ListenerId>
    /** Every onReadComplete call made so far, in order. */
    var delivered: seq<Delivery>
    /** Every call made on the native layer so far, in order. */
    var trace: seq<NativeCall>

    predicate Valid() {
      0 <= bufferSize && buffer.Length == bufferSize as int
    }

    /** The private constructor. `new byte[bufferSize]` throws for a negative size; the
        factory OpenWith reports that before calling here. */
    constructor (descriptor: SerialPortDescriptor, bufferSize: int32)
      requires 0 <= bufferSize
      ensures Valid() && fresh(buffer)
      ensures this.descriptor == descriptor && this.bufferSize == bufferSize
      ensures forall i :: 0 <= i < buffer.Length ==> buffer[i] == 0
      ensures serialPort.None? && input.None? && output.None?
      ensures !connected && !receiving && loops == 0
      ensures listeners == [] && delivered == [] && trace == []
    {
      this.descriptor := descriptor;
      this.bufferSize := bufferSize;
      buffer := new int8[bufferSize](_ => 0);
      serialPort, input, output := None, None, None;
      connected, receiving, loops := false, false, 0;
      listeners, delivered, trace := [], [], [];
    }

    /** The state open() leaves a newly constructed connection in: connected, both streams
        and the line present, no worker, no listeners, one call made on the driver. */
    ghost predicate JustOpened(d: SerialPortDescriptor, size: int32, grant: Native)
      reads this
    {
      && Valid() && descriptor == d && bufferSize == size && buffer.Length == size as int
      && connected && !receiving && loops == 0
      && serialPort == Some(grant.line) && input == Some(grant.input) && output == Some(grant.output)
      && listeners == [] && delivered == []
      && trace == [AcquireOf(d)]
    }

    function Name(): string {
      descriptor.name
    }

    function Baudrate(): int32 {
      descriptor.baudrate
    }

    function IsConnected(): bool
      reads this
    {
      connected
    }

    /** open(): asks the driver for the device; on success the line and both streams
        are set and the connection is marked connected. A refusal throws and changes
        no field. */
    method Open(grant: Option<Native>, driver: Driver) returns (r: Outcome)
      modifies this`serialPort, this`input, this`output, this`connected, this`trace, driver`calls
      ensures driver.calls == old(driver.calls) + [AcquireOf(descriptor)]
      ensures r == (if grant.Some? then Done else Fail(OpenDenied))
      ensures trace == old(trace) + [AcquireOf(descriptor)]
      ensures grant.Some? ==> && serialPort == Some(grant.value.line)
                              && input == Some(grant.value.input)
                              && output == Some(grant.value.output)
                              && connected
      ensures grant.None? ==> && serialPort == old(serialPort) && input == old(input)
                              && output == old(output) && connected == old(connected)
      ensures receiving == old(receiving) && listeners == old(listeners) && delivered == old(delivered)
    {
      trace := trace + [AcquireOf(descriptor)];
      driver.calls := driver.calls + [AcquireOf(descriptor)];
      if grant.None? {
        r := Fail(OpenDenied);
        return;
      }
      serialPort := Some(grant.value.line);
      input := Some(grant.value.input);
      output := Some(grant.value.output);
      connected := true;
      r := Done;
    }

    /** startReceive(): creates an executor and launches a receive loop on it only when
        the field is null; a second call changes nothing. */
    method StartReceive()
      modifies this`receiving, this`loops
      ensures receiving
      ensures loops == old(loops) + (if old(receiving) then 0 else 1)
      ensures serialPort == old(serialPort) && input == old(input) && output == old(output)
      ensures connected == old(connected) && listeners == old(listeners)
      ensures delivered == old(delivered) && trace == old(trace)
    {
      if !receiving {
        receiving := true;
        loops := loops + 1;
      }
    }

    /** stopReceive(): shuts a present executor down and clears the field; with none the
        call dereferences null. Shutting down does not interrupt the loop already running,
        so `loops` and `connected` stay as they were and ReceiveStep goes on delivering. */
    method StopReceive() returns (r: Outcome)
      modifies this`receiving
      ensures loops == old(loops)
      ensures r == (if old(receiving) then Done else Fail(NullPointer))
      ensures !receiving
      ensures serialPort == old(serialPort) && input == old(input) && output == old(output)
      ensures connected == old(connected) && listeners == old(listeners)
      ensures delivered == old(delivered) && trace == old(trace)
    {
      if !receiving {
        r := Fail(NullPointer);
        return;
      }
      receiving := false;
      r := Done;
    }

    /** closeInput(): closes a present input stream and clears the field; an IOException
        is logged and the field keeps its value. */
    method CloseInput(closeFails: bool)
      modifies this`input, this`trace
      ensures input == AfterClose(old(input), closeFails)
      ensures trace == old(trace) + (if old(input).Some? then [CloseStream(old(input).value)] else [])
    {
      if input.Some? {
        trace := trace + [CloseStream(input.value)];
        if !closeFails {
          input := None;
        }
      }
    }

    /** closeOutput(): as closeInput, for the output stream. */
    method CloseOutput(closeFails: bool)
      modifies this`output, this`trace
      ensures output == AfterClose(old(output), closeFails)
      ensures trace == old(trace) + (if old(output).Some? then [CloseStream(old(output).value)] else [])
    {
      if output.Some? {
        trace := trace + [CloseStream(output.value)];
        if !closeFails {
          output := None;
        }
      }
    }

    /** close(): input, then output, then the native line. Stream failures are swallowed;
        `connected` and the line field are left as they were; a null line throws. */
    method Close(inputCloseFails: bool, outputCloseFails: bool) returns (r: Outcome)
      modifies this`input, this`output, this`trace
      ensures r == (if old(serialPort).Some? then Done else Fail(NullPointer))
      ensures trace == old(trace) + CloseCalls(old(input), old(output), old(serialPort))
      ensures input == AfterClose(old(input), inputCloseFails)
      ensures output == AfterClose(old(output), outputCloseFails)
      ensures serialPort == old(serialPort) && connected == old(connected)
      ensures receiving == old(receiving) && listeners == old(listeners) && delivered == old(delivered)
    {
      CloseInput(inputCloseFails);
      CloseOutput(outputCloseFails);
      if serialPort.None? {
        r := Fail(NullPointer);
        return;
      }
      trace := trace + [CloseLine(serialPort.value)];
      r := Done;
    }

    /** addListener(l): appended at the end, duplicates allowed; returns this connection. */
    method AddListener(l: ListenerId) returns (r: EasySerialPortImpl)
      modifies this`listeners
      ensures r == this
      ensures listeners == old(listeners) + [l]
    {
      listeners := listeners + [l];
      r := this;
    }

    /** write(int b): the value goes to the output stream unchanged. */
    method Write(b: int32, writeFails: bool) returns (r: Outcome)
      modifies this`trace
      ensures old(output).None? ==> r == Fail(NullPointer) && trace == old(trace)
      ensures old(output).Some? ==> && r == (if writeFails then Fail(IOError) else Done)
                                    && trace == old(trace) + [WriteByte(output.value, b)]
    {
      if output.None? {
        r := Fail(NullPointer);
        return;
      }
      trace := trace + [WriteByte(output.value, b)];
      r := if writeFails then Fail(IOError) else Done;
    }

    /** write(b, off, len): the log statement first copies `b[off..len]`, which throws for
        `off > len` (and for an `off` outside `b`); otherwise the arguments go to the output
        stream unchanged, which itself refuses a range outside `b`. */
    method WriteRange(b: seq<int8>, off: int32, len: int32, writeFails: bool) returns (r: Outcome)
      modifies this`trace
      ensures CopyOfRangeError(|b|, off, len).Some? ==>
        r == Fail(CopyOfRangeError(|b|, off, len).value) && trace == old(trace)
      ensures CopyOfRangeError(|b|, off, len).None? && old(output).None? ==>
        r == Fail(NullPointer) && trace == old(trace)
      ensures CopyOfRangeError(|b|, off, len).None? && old(output).Some? ==>
        && trace == old(trace) + [NativeCall.WriteRange(output.value, b, off, len)]
        && r == (if !StreamAcceptsRange(|b|, off, len) then Fail(IndexOutOfBounds)
                 else if writeFails then Fail(IOError) else Done)
    {
      var logError := CopyOfRangeError(|b|, off, len);
      if logError.Some? {
        r := Fail(logError.value);
        return;
      }
      if output.None? {
        r := Fail(NullPointer);
        return;
      }
      trace := trace + [NativeCall.WriteRange(output.value, b, off, len)];
      if !StreamAcceptsRange(|b|, off, len) {
        r := Fail(IndexOutOfBounds);
      } else {
        r := if writeFails then Fail(IOError) else Done;
      }
    }

    /** write(b): the whole array goes to the output stream unchanged. */
    method WriteArray(b: seq<int8>, writeFails: bool) returns (r: Outcome)
      modifies this`trace
      ensures old(output).None? ==> r == Fail(NullPointer) && trace == old(trace)
      ensures old(output).Some? ==> && r == (if writeFails then Fail(IOError) else Done)
                                    && trace == old(trace) + [WriteAll(output.value, b)]
    {
      if output.None? {
        r := Fail(NullPointer);
        return;
      }
      trace := trace + [WriteAll(output.value, b)];
      r := if writeFails then Fail(IOError) else Done;
    }

    /** flush(): forwarded to the output stream. */
    method Flush(flushFails: bool) returns (r: Outcome)
      modifies this`trace
      ensures old(output).None? ==> r == Fail(NullPointer) && trace == old(trace)
      ensures old(output).Some? ==> && r == (if flushFails then Fail(IOError) else Done)
                                    && trace == old(trace) + [NativeCall.Flush(output.value)]
    {
      if output.None? {
        r := Fail(NullPointer);
        return;
      }
      trace := trace + [NativeCall.Flush(output.value)];
      r := if flushFails then Fail(IOError) else Done;
    }

    /** The loop that fills `receive[i] = toUnsignedInt(buffer[i])` for the first `size` bytes. */
    method ReceivedData(size: nat) returns (data: seq<int>)
      requires size <= buffer.Length
      ensures data == Unsigned(buffer[..size])
    {
      var receive := new int[size];
      for i := 0 to size
        invariant forall k :: 0 <= k < i ==> receive[k] == ToUnsignedInt(buffer[k])
      {
        receive[i] := ToUnsignedInt(buffer[i]);
      }
      data := receive[..];
      assert forall k :: 0 <= k < size ==> data[k] == Unsigned(buffer[..size])[k];
    }

    /** The for-each over the listeners: `event` to each, in list order. */
    method Notify(event: ReadEvent)
      modifies this`delivered
      ensures delivered == old(delivered) + Deliveries(listeners, event)
    {
      var i := 0;
      while i < |listeners|
        invariant 0 <= i <= |listeners|
        invariant delivered == old(delivered) + Deliveries(listeners[..i], event)
      {
        assert listeners[..i + 1][..i] == listeners[..i];
        delivered := delivered + [Delivery(listeners[i], event)];
        i := i + 1;
      }
      assert listeners[..i] == listeners;
    }

    /** One iteration of the receive worker's `while (connected)` loop. Returns whether the
        loop guard held. With a present input stream it reads into the scratch buffer; a
        read of at least one byte is converted to unsigned values and delivered to every
        listener. End of stream, an empty read and a read error deliver nothing. Reads happen
        only on a worker that `startReceive` launched, so at least one loop must exist. */
    method ReceiveStep(read: ReadOutcome) returns (running: bool)
      requires Valid() && loops > 0
      requires read.Bytes? ==> |read.bytes| <= buffer.Length
      modifies this`delivered, this`trace, buffer
      ensures running == old(connected)
      ensures var polled := old(connected) && old(input).Some?;
        && trace == old(trace) + (if polled then [Read(old(input).value)] else [])
        && buffer[..] == (if polled && read.Bytes? then read.bytes + old(buffer[..])[|read.bytes|..]
                          else old(buffer[..]))
        && var e := EventOf(descriptor.name, read);
           delivered == old(delivered) + (if polled && e.Some? then Deliveries(listeners, e.value) else [])
    {
      running := connected;
      if !connected || input.None? {
        return;
      }
      trace := trace + [Read(input.value)];
      if read.Bytes? {
        var bytes := read.bytes;
        forall i | 0 <= i < |bytes| {
          buffer[i] := bytes[i];
        }
        assert buffer[..] == bytes + old(buffer[..])[|bytes|..];
        var size := |bytes|;
        if size > 0 {
          var data := ReceivedData(size);
          assert buffer[..size] == bytes;
          Notify(ReadEvent(descriptor.name, data));
        }
      }
    }
  }

  // ---------------------------------------------------------------------------
  // The static open factories

  /** open(descriptor, bufferSize): a new connection, opened. A negative size throws
      before the driver is asked; a refusal by the driver throws the open error. */
  method OpenWith(descriptor: SerialPortDescriptor, bufferSize: int32, grant: Option<Native>, driver: Driver)
    returns (r: Result<EasySerialPortImpl>)
    modifies driver`calls
    ensures driver.calls == old(driver.calls) + (if bufferSize < 0 then [] else [AcquireOf(descriptor)])
    ensures bufferSize < 0 ==> r == Err(NegativeArraySize)
    ensures 0 <= bufferSize && grant.None? ==> r == Err(OpenDenied)
    ensures r.Ok? <==> 0 <= bufferSize && grant.Some?
    ensures r.Ok? ==> && fresh(r.value) && fresh(r.value.buffer)
                      && r.value.JustOpened(descriptor, bufferSize, grant.value)
  {
    if bufferSize < 0 {
      return Err(NegativeArraySize);
    }
    var port := new EasySerialPortImpl(descriptor, bufferSize);
    var outcome := port.Open(grant, driver);
    if outcome.Fail? {
      return Err(outcome.error);
    }
    r := Ok(port);
  }

  /** open(descriptor): as OpenWith with the default buffer of 512 bytes. */
  method OpenDescriptor(descriptor: SerialPortDescriptor, grant: Option<Native>, driver: Driver)
    returns (r: Result<EasySerialPortImpl>)
    modifies driver`calls
    ensures driver.calls == old(driver.calls) + [AcquireOf(descriptor)]
    ensures r == Err(OpenDenied) <==> grant.None?
    ensures r.Ok? <==> grant.Some?
    ensures r.Ok? ==> && fresh(r.value) && fresh(r.value.buffer)
                      && r.value.JustOpened(descriptor, 512, grant.value)
  {
    r := OpenWith(descriptor, DEFAULT_BUFFER_SIZE, grant, driver);
  }

  /** open(portName, portBaud, bufferSize): the descriptor gets flags 0. */
  method OpenNameBaudSize(portName: string, portBaud: int32, bufferSize: int32, grant: Option<Native>, driver: Driver)
    returns (r: Result<EasySerialPortImpl>)
    modifies driver`calls
    ensures driver.calls == old(driver.calls) + (if bufferSize < 0 then [] else [Acquire(portName, portBaud, 0)])
    ensures bufferSize < 0 ==> r == Err(NegativeArraySize)
    ensures 0 <= bufferSize && grant.None? ==> r == Err(OpenDenied)
    ensures r.Ok? <==> 0 <= bufferSize && grant.Some?
    ensures r.Ok? ==> && fresh(r.value) && fresh(r.value.buffer)
                      && r.value.JustOpened(SerialPortDescriptor(portName, portBaud, 0), bufferSize, grant.value)
  {
    r := OpenWith(FromNameBaudrate(portName, portBaud), bufferSize, grant, driver);
  }

  /** open(portName, portBaud): the descriptor gets flags 0; the default buffer. */
  method OpenNameBaud(portName: string, portBaud: int32, grant: Option<Native>, driver: Driver)
    returns (r: Result<EasySerialPortImpl>)
    modifies driver`calls
    ensures driver.calls == old(driver.calls) + [Acquire(portName, portBaud, 0)]
    ensures r == Err(OpenDenied) <==> grant.None?
    ensures r.Ok? <==> grant.Some?
    ensures r.Ok? ==> && fresh(r.value) && fresh(r.value.buffer)
                      && r.value.JustOpened(SerialPortDescriptor(portName, portBaud, 0), 512, grant.value)
  {
    r := OpenDescriptor(FromNameBaudrate(portName, portBaud), grant, driver);
  }

  /** open(portName): baud 9600, flags 0, the default buffer. */
  method OpenName(portName: string, grant: Option<Native>, driver: Driver)
    returns (r: Result<EasySerialPortImpl>)
    modifies driver`calls
    ensures driver.calls == old(driver.calls) + [Acquire(portName, 9600, 0)]
    ensures r == Err(OpenDenied) <==> grant.None?
    ensures r.Ok? <==> grant.Some?
    ensures r.Ok? ==> && fresh(r.value) && fresh(r.value.buffer)
                      && r.value.JustOpened(SerialPortDescriptor(portName, 9600, 0), 512, grant.value)
  {
    r := OpenNameBaud(portName, DEFAULT_BAUD, grant, driver);
  }
}
