/** SerialPortService: the process-wide table from port name to open connection, with
    retries of failed opens; and EasySerialPortServiceProxy, the handle it gives out. */
module Service {

  import opened JavaTypes
  import opened Descriptors
  import opened Connection

  /** The delay a failed open is retried after, in RetryUnit. */
  const RETRY_DELAY: int := 3000

  /** The time unit the retry is scheduled in: only seconds are used. */
  datatype TimeUnit = Seconds

  /** One task handed to the scheduler by a failed open: open `descriptor` again. */
  datatype Retry = Retry(descriptor: SerialPortDescriptor, delay: int, unit: TimeUnit)

  // ---------------------------------------------------------------------------
  // Which names are registered, as a function of the requests made

  /** A request to the registry: an open whose driver call would succeed or fail,
      or a close by name. */
  datatype Request = OpenRequest(descriptor: SerialPortDescriptor, granted: bool) | CloseRequest(name: string)

  /** The registered names after one request. */
  function NextNames(names: set<string>, req: Request): set<string> {
    match req
    case OpenRequest(d, granted) => if d.name !in names && granted then names + {d.name} else names
    case CloseRequest(n) => names - {n}
  }

  /** The registered names after a sequence of requests. */
  function RunNames(names: set<string>, reqs: seq<Request>): set<string> {
    if reqs == [] then names else NextNames(RunNames(names, reqs[..|reqs| - 1]), reqs[|reqs| - 1])
  }

  predicate Closes(req: Request, n: string) {
    req.CloseRequest? && req.name == n
  }

  predicate OpensGranted(req: Request, n: string) {
    req.OpenRequest? && req.granted && req.descriptor.name == n
  }

  /** No request from index `i` on closes `n`. */
  predicate KeptFrom(reqs: seq<Request>, i: nat, n: string) {
    forall j :: i <= j < |reqs| ==> !Closes(reqs[j], n)
  }

  /** Some successful open of `n` is followed by no close of `n`. */
  predicate OpenedAndKept(reqs: seq<Request>, n: string) {
    exists i :: 0 <= i < |reqs| && OpensGranted(reqs[i], n) && KeptFrom(reqs, i + 1, n)
  }

  /** A name is registered after a sequence of requests exactly when it was registered
      before and never closed, or a successful open of it was never followed by a close. */
  lemma {:induction false} RegisteredIff(names: set<string>, reqs: seq<Request>, n: string)
    ensures n in RunNames(names, reqs) <==> (n in names && KeptFrom(reqs, 0, n)) || OpenedAndKept(reqs, n)
    decreases |reqs|
  {
    if reqs != [] {
      var k := |reqs| - 1;
      var prefix := reqs[..k];
      var last := reqs[k];
      RegisteredIff(names, prefix, n);
      if Closes(last, n) {
        assert !KeptFrom(reqs, 0, n);
        assert !OpenedAndKept(reqs, n);
      } else if OpensGranted(last, n) {
        assert KeptFrom(reqs, k + 1, n);
        assert OpenedAndKept(reqs, n);
      } else {
        assert NextNames(RunNames(names, prefix), last) * {n} == RunNames(names, prefix) * {n};
        assert KeptFrom(reqs, 0, n) <==> KeptFrom(prefix, 0, n);
        if OpenedAndKept(reqs, n) {
          var i :| 0 <= i < |reqs| && OpensGranted(reqs[i], n) && KeptFrom(reqs, i + 1, n);
          assert i < k && KeptFrom(prefix, i + 1, n);
          assert OpenedAndKept(prefix, n);
        }
        if OpenedAndKept(prefix, n) {
          var i :| 0 <= i < |prefix| && OpensGranted(prefix[i], n) && KeptFrom(prefix, i + 1, n);
          assert OpensGranted(reqs[i], n) && KeptFrom(reqs, i + 1, n);
        }
      }
    }
  }

  /** A name no request mentions keeps its membership. */
  lemma {:induction false} UntouchedNameKept(names: set<string>, reqs: seq<Request>, n: string)
    requires forall j :: 0 <= j < |reqs| ==> !Closes(reqs[j], n) && !OpensGranted(reqs[j], n)
    ensures n in RunNames(names, reqs) <==> n in names
  {
    RegisteredIff(names, reqs, n);
  }

  // ---------------------------------------------------------------------------
  // The registry

  /** The entry openSerialPort registers for `d` when the driver grants the device: the
      default buffer, opened, its receive loop launched, nothing else done to it yet. */
  ghost predicate NewlyRegistered(c: EasySerialPortImpl, d: SerialPortDescriptor, grant: Native)
    reads c
  {
    && c.descriptor == d && c.bufferSize == 512 && c.buffer.Length == 512
    && c.connected && c.receiving && c.loops == 1
    && c.serialPort == Some(grant.line) && c.input == Some(grant.input) && c.output == Some(grant.output)
    && c.listeners == [] && c.delivered == []
    && c.trace == [AcquireOf(d)]
  }

  class SerialPortService {
    /** serialPortMap. Static in the source: one table for the whole process. */
    var ports: map<string, EasySerialPortImpl>
    /** Open retries handed to the scheduler and not yet run, in the order scheduled. */
    var retries: seq<Retry>

    /** Every entry is keyed by its own name and holds a connection that was opened
        successfully and whose receive worker was started. */
    ghost predicate Valid()
      reads this, ports.Values
    {
      forall n :: n in ports ==>
        && ports[n].Valid()
        && ports[n].descriptor.name == n
        && ports[n].connected
        && ports[n].receiving
        && ports[n].serialPort.Some?
    }

    constructor ()
      ensures Valid() && ports == map[] && retries == []
    {
      ports := map[];
      retries := [];
    }

    /** openSerialPort(descriptor): for an absent name, opens a connection with the default
        buffer, starts its worker and registers it; when the open throws, schedules one
        retry of the same descriptor instead. A present name changes nothing. */
    method OpenSerialPort(descriptor: SerialPortDescriptor, grant: Option<Native>, driver: Driver)
      requires Valid()
      modifies this, driver`calls
      ensures Valid()
      ensures driver.calls == old(driver.calls) + (if descriptor.name in old(ports) then [] else [AcquireOf(descriptor)])
      ensures ports.Keys == NextNames(old(ports.Keys), OpenRequest(descriptor, grant.Some?))
      ensures forall n :: n in old(ports) ==> n in ports && ports[n] == old(ports[n])
      ensures descriptor.name !in old(ports) && grant.Some? ==>
        fresh(ports[descriptor.name]) && NewlyRegistered(ports[descriptor.name], descriptor, grant.value)
      ensures retries == old(retries)
        + (if descriptor.name !in old(ports) && grant.None? then [Retry(descriptor, 3000, Seconds)] else [])
    {
      if descriptor.name in ports {
        return;
      }
      var created := OpenDescriptor(descriptor, grant, driver);
      if created.Err? {
        retries := retries + [Retry(descriptor, RETRY_DELAY, Seconds)];
        return;
      }
      var port := created.value;
      port.StartReceive();
      ports := ports[descriptor.name := port];
    }

    /** The scheduler runs the oldest pending retry: openSerialPort of its descriptor. */
    method RunRetry(grant: Option<Native>, driver: Driver)
      requires Valid() && retries != []
      modifies this, driver`calls
      ensures Valid()
      ensures var d := old(retries[0].descriptor);
        && ports.Keys == NextNames(old(ports.Keys), OpenRequest(d, grant.Some?))
        && retries == old(retries[1..]) + (if d.name !in old(ports) && grant.None? then [Retry(d, 3000, Seconds)] else [])
        && driver.calls == old(driver.calls) + (if d.name in old(ports) then [] else [AcquireOf(d)])
        && (d.name !in old(ports) && grant.Some? ==> fresh(ports[d.name]) && NewlyRegistered(ports[d.name], d, grant.value))
      ensures forall n :: n in old(ports) ==> n in ports && ports[n] == old(ports[n])
    {
      var job := retries[0];
      retries := retries[1..];
      OpenSerialPort(job.descriptor, grant, driver);
    }

    /** closeSerialPort(portName): closes the registered connection and removes only its
        entry; an absent name changes nothing. The worker is not stopped and the
        connection stays marked connected. */
    method CloseSerialPort(portName: string, inputCloseFails: bool, outputCloseFails: bool)
      requires Valid()
      modifies this, if portName in ports then {ports[portName]} else {}
      ensures Valid()
      ensures ports == old(ports) - {portName}
      ensures retries == old(retries)
      ensures portName in old(ports) ==>
        var c := old(ports[portName]);
        && c.trace == old(c.trace) + CloseCalls(old(c.input), old(c.output), old(c.serialPort))
        && c.input == AfterClose(old(c.input), inputCloseFails)
        && c.output == AfterClose(old(c.output), outputCloseFails)
        && c.serialPort == old(c.serialPort) && c.connected && c.receiving && c.loops == old(c.loops)
        && c.listeners == old(c.listeners) && c.delivered == old(c.delivered)
    {
      if portName !in ports {
        return;
      }
      var port := ports[portName];
      var closed := port.Close(inputCloseFails, outputCloseFails);
      if closed.Done? {
        ports := ports - {portName};
      }
    }

    /** getSerialPort(portName): a new proxy over the registered connection, or null.
        The table is not changed. */
    method GetSerialPort(portName: string) returns (r: Option<EasySerialPortServiceProxy>)
      ensures r.Some? <==> portName in ports
      ensures r.Some? ==> fresh(r.value) && r.value.service == this && r.value.port == ports[portName]
      ensures Valid() && r.Some? ==> r.value.Name() == portName
    {
      if portName !in ports {
        return None;
      }
      var proxy := new EasySerialPortServiceProxy(this, ports[portName]);
      r := Some(proxy);
    }
  }

  // ---------------------------------------------------------------------------
  // The proxy

  /** Forwards every call to the wrapped connection, except close, which asks the
      service to close the port of the wrapped connection's name. No reference count. */
  class EasySerialPortServiceProxy {
    const service: SerialPortService
    const port: EasySerialPortImpl

    constructor (service: SerialPortService, port: EasySerialPortImpl)
      ensures this.service == service && this.port == port
    {
      this.service := service;
      this.port := port;
    }

    function Name(): (name: string)
      ensures name == port.descriptor.name
    {
      port.Name()
    }

    function Baudrate(): (baudrate: int32)
      ensures baudrate == port.descriptor.baudrate
    {
      port.Baudrate()
    }

    /** open(): forwarded; returns what the connection's open() returns, which is the
        wrapped connection itself and not the proxy. The service's table is not touched. */
    method Open(grant: Option<Native>, driver: Driver) returns (r: Result<EasySerialPortImpl>)
      modifies port, driver`calls
      ensures driver.calls == old(driver.calls) + [AcquireOf(port.descriptor)]
      ensures old(service.Valid()) ==> service.Valid()
      ensures service.ports == old(service.ports) && service.retries == old(service.retries)
      ensures r == (if grant.Some? then Ok(port) else Err(OpenDenied))
      ensures port.trace == old(port.trace) + [AcquireOf(port.descriptor)]
      ensures grant.Some? ==> && port.serialPort == Some(grant.value.line)
                              && port.input == Some(grant.value.input)
                              && port.output == Some(grant.value.output)
                              && port.connected
      ensures grant.None? ==> && port.serialPort == old(port.serialPort) && port.input == old(port.input)
                              && port.output == old(port.output) && port.connected == old(port.connected)
      ensures port.receiving == old(port.receiving) && port.loops == old(port.loops)
      ensures port.listeners == old(port.listeners) && port.delivered == old(port.delivered)
    {
      var outcome := port.Open(grant, driver);
      r := if outcome.Done? then Ok(port) else Err(outcome.error);
    }

    /** close(): closes whatever the service holds under the wrapped connection's name
        and returns the wrapped connection, not the proxy. */
    method Close(inputCloseFails: bool, outputCloseFails: bool) returns (r: EasySerialPortImpl)
      requires service.Valid()
      modifies service, if port.Name() in service.ports then {service.ports[port.Name()]} else {}
      ensures r == port
      ensures service.Valid()
      ensures service.ports == old(service.ports) - {port.Name()}
      ensures service.retries == old(service.retries)
      ensures port.Name() in old(service.ports) ==>
        var c := old(service.ports[port.Name()]);
        && c.trace == old(c.trace) + CloseCalls(old(c.input), old(c.output), old(c.serialPort))
        && c.input == AfterClose(old(c.input), inputCloseFails)
        && c.output == AfterClose(old(c.output), outputCloseFails)
        && c.serialPort == old(c.serialPort) && c.connected && c.receiving && c.loops == old(c.loops)
        && c.listeners == old(c.listeners) && c.delivered == old(c.delivered)
    {
      service.CloseSerialPort(port.Name(), inputCloseFails, outputCloseFails);
      r := port;
    }

    /** write(int b): forwarded unchanged. */
    method Write(b: int32, writeFails: bool) returns (r: Outcome)
      modifies port`trace
      ensures old(service.Valid()) ==> service.Valid()
      ensures old(port.output).None? ==> r == Fail(NullPointer) && port.trace == old(port.trace)
      ensures old(port.output).Some? ==> && r == (if writeFails then Fail(IOError) else Done)
                                         && port.trace == old(port.trace) + [WriteByte(port.output.value, b)]
    {
      r := port.Write(b, writeFails);
    }

    /** write(b, off, len): forwarded unchanged. */
    method WriteRange(b: seq<int8>, off: int32, len: int32, writeFails: bool) returns (r: Outcome)
      modifies port`trace
      ensures old(service.Valid()) ==> service.Valid()
      ensures CopyOfRangeError(|b|, off, len).Some? ==>
        r == Fail(CopyOfRangeError(|b|, off, len).value) && port.trace == old(port.trace)
      ensures CopyOfRangeError(|b|, off, len).None? && old(port.output).None? ==>
        r == Fail(NullPointer) && port.trace == old(port.trace)
      ensures CopyOfRangeError(|b|, off, len).None? && old(port.output).Some? ==>
        && port.trace == old(port.trace) + [NativeCall.WriteRange(port.output.value, b, off, len)]
        && r == (if !StreamAcceptsRange(|b|, off, len) then Fail(IndexOutOfBounds)
                 else if writeFails then Fail(IOError) else Done)
    {
      r := port.WriteRange(b, off, len, writeFails);
    }

    /** write(b): forwarded unchanged. */
    method WriteArray(b: seq<int8>, writeFails: bool) returns (r: Outcome)
      modifies port`trace
      ensures old(service.Valid()) ==> service.Valid()
      ensures old(port.output).None? ==> r == Fail(NullPointer) && port.trace == old(port.trace)
      ensures old(port.output).Some? ==> && r == (if writeFails then Fail(IOError) else Done)
                                         && port.trace == old(port.trace) + [WriteAll(port.output.value, b)]
    {
      r := port.WriteArray(b, writeFails);
    }

    /** flush(): forwarded. */
    method Flush(flushFails: bool) returns (r: Outcome)
      modifies port`trace
      ensures old(service.Valid()) ==> service.Valid()
      ensures old(port.output).None? ==> r == Fail(NullPointer) && port.trace == old(port.trace)
      ensures old(port.output).Some? ==> && r == (if flushFails then Fail(IOError) else Done)
                                         && port.trace == old(port.trace) + [NativeCall.Flush(port.output.value)]
    {
      r := port.Flush(flushFails);
    }

    /** addListener(l): forwarded; returns the wrapped connection, not the proxy. */
    method AddListener(l: ListenerId) returns (r: EasySerialPortImpl)
      modifies port`listeners
      ensures old(service.Valid()) ==> service.Valid()
      ensures r == port
      ensures port.listeners == old(port.listeners) + [l]
    {
      r := port.AddListener(l);
    }
  }
}
