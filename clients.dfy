/** Callers of the connection, the service and the proxy, showing what can be concluded
    from their contracts alone. */
module Clients {

  import opened JavaTypes
  import opened Descriptors
  import opened Connection
  import opened Service

  /** The read 0x01 0xFF 0x00 of COM_TEST is the event of the values 1, 255, 0. */
  lemma SampleEvent(bytes: seq<int8>, event: ReadEvent)
    requires bytes == [1, -1, 0] && event == ReadEvent("COM_TEST", [1, 255, 0])
    ensures EventOf("COM_TEST", Bytes(bytes)) == Some(event)
  {
    assert Unsigned(bytes) == [1, 255, 0];
  }

  /** A read of 0x01 0xFF 0x00 reaches a registered listener once, as the values 1, 255, 0. */
  method ListenerSeesUnsignedRead() {
    var driver := new Driver();
    var r := OpenNameBaud("COM_TEST", 9600, Some(Native(Handle(0), Handle(1), Handle(2))), driver);
    var port := r.value;
    var listener := ListenerId(7);
    var same := port.AddListener(listener);
    assert same == port && port.listeners == [listener];
    port.StartReceive();
    var bytes: seq<int8> := [1, -1, 0];
    var event := ReadEvent("COM_TEST", [1, 255, 0]);
    SampleEvent(bytes, event);
    var running := port.ReceiveStep(Bytes(bytes));
    assert running && port.delivered == Deliveries([listener], event);
    DispatchOnce([], port.listeners, event, listener);
    assert ReceivedBy(port.delivered, listener) == [ReadEvent("COM_TEST", [1, 255, 0])];
  }

  /** A read of no bytes keeps the loop going and delivers nothing. */
  method EmptyReadDeliversNothing() {
    var driver := new Driver();
    var r := OpenName("COM_TEST", Some(Native(Handle(0), Handle(1), Handle(2))), driver);
    var port := r.value;
    var _ := port.AddListener(ListenerId(7));
    port.StartReceive();
    var running := port.ReceiveStep(Bytes([]));
    assert running && port.delivered == [] && port.trace[1..] == [Read(Handle(1))];
  }

  /** The arguments of write(b, off, len) reach the output stream as given; a range the
      stream would take but whose offset exceeds its length is refused first. */
  method WritesReachTheStream() {
    var driver := new Driver();
    var d := FromName("/dev/ttyS0");
    var r := OpenDescriptor(d, Some(Native(Handle(0), Handle(1), Handle(2))), driver);
    var port := r.value;
    var b: seq<int8> := [ToSignedByte(0xDE), ToSignedByte(0xAD)];
    var w := port.WriteRange(b, 0, 2, false);
    assert w == Done;
    assert port.trace == [Acquire(d.name, 9600, 0), NativeCall.WriteRange(Handle(2), b, 0, 2)];
    w := port.WriteRange(b, 1, 0, false);
    assert w == Fail(IllegalArgument) && |port.trace| == 2;
  }

  /** close() twice succeeds both times and never clears `connected`. */
  method CloseTwice() {
    var driver := new Driver();
    var r := OpenDescriptor(FromName("/dev/ttyS0"), Some(Native(Handle(0), Handle(1), Handle(2))), driver);
    var port := r.value;
    var first := port.Close(false, false);
    var second := port.Close(false, false);
    assert first == Done && second == Done && port.connected;
    assert port.input.None? && port.output.None?;
    assert port.trace[1..] == [CloseStream(Handle(1)), CloseStream(Handle(2)), CloseLine(Handle(0)), CloseLine(Handle(0))];
  }

  /** A second open of a registered name neither replaces it nor asks the driver again. */
  method DuplicateOpenIsIgnored() {
    var driver := new Driver();
    var service := new SerialPortService();
    var d := FromName("/dev/ttyS1");
    service.OpenSerialPort(d, Some(Native(Handle(0), Handle(1), Handle(2))), driver);
    var registered := service.ports[d.name];
    service.OpenSerialPort(FromNameBaudrate(d.name, 115200), Some(Native(Handle(3), Handle(4), Handle(5))), driver);
    assert service.ports == map[d.name := registered];
    assert registered.trace == [Acquire(d.name, 9600, 0)];
    assert driver.calls == [Acquire(d.name, 9600, 0)];
  }

  /** Two failed opens leave one pending retry each time; the third attempt registers the port. */
  method FailedOpenIsRetried() {
    var driver := new Driver();
    var service := new SerialPortService();
    var d := FromName("/dev/ttyUSB0");
    service.OpenSerialPort(d, None, driver);
    assert service.ports == map[] && service.retries == [Retry(d, 3000, Seconds)];
    service.RunRetry(None, driver);
    assert service.ports == map[] && service.retries == [Retry(d, 3000, Seconds)];
    service.RunRetry(Some(Native(Handle(0), Handle(1), Handle(2))), driver);
    assert d.name in service.ports && service.ports[d.name].receiving && service.retries == [];
    assert service.ports[d.name].descriptor == d && service.ports[d.name].loops == 1;
    assert driver.calls == [AcquireOf(d), AcquireOf(d), AcquireOf(d)];
  }

  /** Closing through one proxy removes the port for every holder; closing through a second
      proxy of the same name then changes nothing. */
  method SecondProxyCloseIsNoOp() {
    var driver := new Driver();
    var service := new SerialPortService();
    var d := FromName("COM1");
    service.OpenSerialPort(d, Some(Native(Handle(0), Handle(1), Handle(2))), driver);
    var p := service.GetSerialPort(d.name);
    var q := service.GetSerialPort(d.name);
    var first, second := p.value, q.value;
    assert first != second && first.port == second.port;
    var closed := first.Close(false, false);
    assert closed == second.port;
    var lookup := service.GetSerialPort(d.name);
    assert lookup.None?;
    var before := service.ports;
    closed := second.Close(false, false);
    assert service.ports == before;
  }

  /** Registers `d` and closes it again through a proxy, which the caller keeps. */
  method RegisterAndCloseThroughProxy(service: SerialPortService, d: SerialPortDescriptor, driver: Driver)
    returns (stale: EasySerialPortServiceProxy)
    requires service.Valid() && d.name !in service.ports
    modifies service, driver`calls
    ensures service.Valid() && d.name !in service.ports
    ensures stale.service == service && stale.port.Name() == d.name
  {
    service.OpenSerialPort(d, Some(Native(Handle(0), Handle(1), Handle(2))), driver);
    var p := service.GetSerialPort(d.name);
    stale := p.value;
    var _ := stale.Close(false, false);
  }

  /** The proxy closes by name: a proxy kept from an earlier registration closes the
      connection that now holds that name. */
  method StaleProxyClosesNewerConnection() {
    var driver := new Driver();
    var service := new SerialPortService();
    var d := FromName("COM2");
    var stale := RegisterAndCloseThroughProxy(service, d, driver);
    service.OpenSerialPort(d, Some(Native(Handle(3), Handle(4), Handle(5))), driver);
    var newer := service.ports[d.name];
    assert newer != stale.port;
    assert NewlyRegistered(newer, d, Native(Handle(3), Handle(4), Handle(5)));
    var returned := stale.Close(false, false);
    assert returned == stale.port && d.name !in service.ports;
    assert newer.trace == [Acquire(d.name, 9600, 0), CloseStream(Handle(4)), CloseStream(Handle(5)), CloseLine(Handle(3))];
  }

  /** The read 0x05 of COM3 is the event of the value 5. */
  lemma OneByteEvent(bytes: seq<int8>, event: ReadEvent)
    requires bytes == [5] && event == ReadEvent("COM3", [5])
    ensures EventOf("COM3", Bytes(bytes)) == Some(event)
  {
    assert Unsigned(bytes) == [5];
  }

  /** Opens COM3, starts receiving, stops again and adds `listener`: the executor is gone,
      one loop remains. */
  method StartThenStop(listener: ListenerId) returns (port: EasySerialPortImpl)
    ensures fresh(port) && fresh(port.buffer) && port.Valid()
    ensures port.descriptor.name == "COM3" && port.buffer.Length == 512
    ensures port.connected && port.input == Some(Handle(1))
    ensures !port.receiving && port.loops == 1 && port.listeners == [listener] && port.delivered == []
  {
    var driver := new Driver();
    var r := OpenName("COM3", Some(Native(Handle(0), Handle(1), Handle(2))), driver);
    port := r.value;
    port.StartReceive();
    var stopped := port.StopReceive();
    assert stopped == Done;
    var _ := port.AddListener(listener);
  }

  /** stopReceive clears the executor field but leaves the running loop alone: the loop
      still delivers, and a later startReceive launches a second loop beside it. */
  method StopReceiveLeavesLoopRunning() {
    var listener := ListenerId(1);
    var port := StartThenStop(listener);
    var bytes: seq<int8> := [5];
    var event := ReadEvent("COM3", [5]);
    OneByteEvent(bytes, event);
    var running := port.ReceiveStep(Bytes(bytes));
    assert running && port.delivered == Deliveries([listener], event);
    port.StartReceive();
    assert port.receiving && port.loops == 2;
  }
}
