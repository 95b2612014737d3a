/** The client library's handle: its two sockets, their reassembly buffers, and what it shows the application. */
module Library {
  import opened Bytes
  import opened Protocol
  import opened Controller
  import opened LibraryModel

  const ENODEV := 19
  const ENAMETOOLONG := 36
  const EPROTO := 71
  const SOCKET_PATH_SIZE := 108
  const DEFAULT_SOCKET := "/data/data/com.termux/files/usr/tmp/termux-gamepad-evdev.sock"

  /** What the kernel answers to a recv. */
  datatype Reply = Some(data: seq<byte>) | NotYet | Interrupted | End | Error

  /** One recv. Only finitely much arrives during one call of the library. */
  method Recv(room: nat, budget: nat) returns (r: Reply, left: nat)
    requires room > 0
    ensures r.Some? ==> 0 < |r.data| <= room
    ensures left <= budget && (r.Some? || r.Interrupted? ==> left < budget)
  {
    left := budget;
    if
    case budget > 0 =>
      var data: seq<byte> :| 0 < |data| <= room by { assert |[0 as byte]| == 1; }
      r, left := Some(data), budget - 1;
    case budget > 0 => r, left := Interrupted, budget - 1;
    case true => r := NotYet;
    case true => r := End;
    case true => r := Error;
  }

  /** Connects, sends one command and waits for the first bytes of the answer; an error is negative. */
  method Exchange(command: u16, size: nat) returns (result: int, answer: seq<byte>)
    ensures result <= 0 && (result == 0 ==> |answer| == size)
  {
    result, answer := *, [];
    if result >= 0 {
      result := 0;
      answer :| |answer| == size by { assert |seq(size, _ => 0 as byte)| == size; }
    }
  }

  /** fcntl on the new socket. */
  method SetNonblocking() returns (result: int)
    ensures result <= 0
  {
    result := *;
    if result > 0 {
      result := 0;
    }
  }

  /** The path asked for, or else the one in the environment, or else the default; empty is none. */
  function SocketPath(path: string, environment: string): string {
    if path != "" then path else if environment != "" then environment else DEFAULT_SOCKET
  }

  /** Whether the device shown changed at some point of a run. */
  ghost predicate Changed(l: Lib, run: seq<Label>)
    requires Legal(l, run)
  {
    run != [] &&
    (Changed(l, run[..|run| - 1]) || After(l, run).device != After(l, run[..|run| - 1]).device)
  }

  /** memcpy behind what is there. */
  method Store(buffer: array<byte>, used: nat, data: seq<byte>)
    requires used + |data| <= buffer.Length
    modifies buffer
    ensures buffer[..used + |data|] == old(buffer[..used]) + data
  {
    forall k | 0 <= k < |data| { buffer[used + k] := data[k]; }
  }

  class Gamepad {
    const socketPath: string
    var monitorOpen: bool
    var eventsOpen: bool
    var device: Device
    var state: Replica
    const monitorBuffer: array<byte>
    var monitorUsed: nat
    const eventBuffer: array<byte>
    var eventUsed: nat

    ghost predicate Valid()
      reads this
    {
      && monitorBuffer != eventBuffer
      && monitorBuffer.Length == HOTPLUG_SIZE && monitorUsed < HOTPLUG_SIZE
      && eventBuffer.Length == EVENT_SIZE && eventUsed < EVENT_SIZE
    }

    ghost function Shown(): Lib
      requires Valid()
      reads this, monitorBuffer, eventBuffer
    {
      Lib(monitorOpen, eventsOpen, device, state, monitorBuffer[..monitorUsed], eventBuffer[..eventUsed])
    }

    constructor (path: string)
      ensures Valid() && fresh(monitorBuffer) && fresh(eventBuffer) && Shown() == CREATED && socketPath == path
    {
      socketPath := path;
      monitorBuffer := new byte[HOTPLUG_SIZE](_ => 0);
      eventBuffer := new byte[EVENT_SIZE](_ => 0);
      monitorOpen, eventsOpen, monitorUsed, eventUsed := false, false, 0, 0;
      device, state := ABSENT, RESET;
    }

    /**
     * There is no handle without memory or with a path that does not fit the socket's address.
     * Otherwise it is usable at once, whether or not the bridge is there.
     */
    static method Create(path: string, environment: string, memory: bool)
      returns (g: Gamepad?, error: int, ghost run: seq<Label>)
      ensures g == null <==> !memory || |SocketPath(path, environment)| >= SOCKET_PATH_SIZE
      ensures g == null && memory ==> error == ENAMETOOLONG
      ensures g != null ==> fresh(g) && g.Valid() && g.socketPath == SocketPath(path, environment)
      ensures g != null ==> Legal(CREATED, run) && g.Shown() == After(CREATED, run) && Life(g.Shown())
    {
      g, error, run := null, 0, [];
      if !memory {
        return;
      }
      var chosen := if path != "" then path else if environment != "" then environment else DEFAULT_SOCKET;
      if |chosen| >= SOCKET_PATH_SIZE {
        error := ENAMETOOLONG;
        return;
      }
      var gamepad := new Gamepad(chosen);
      var result;
      result, run := gamepad.OpenMonitor();
      LifeAlways(CREATED, run);
      g := gamepad;
    }

    method CloseEventStream()
      requires Valid()
      modifies `eventsOpen, `eventUsed, `state
      ensures Valid() && Shown() == EventsClosed(old(Shown()))
    {
      eventsOpen := false;
      eventUsed := 0;
      state := RESET;
    }

    /**
     * Asks the bridge for events: 0 when the stream is open. An answer without a present device is
     * no stream and -ENODEV; what fails on the way has its own error, and changes nothing.
     */
    method OpenEventStream() returns (result: int, ghost run: seq<Label>)
      requires Valid() && !eventsOpen && device.present != 0
      modifies `eventsOpen, `eventUsed, `state
      ensures Valid() && Legal(old(Shown()), run) && Shown() == After(old(Shown()), run)
      ensures Shown().device == old(Shown()).device && !Changed(old(Shown()), run)
      ensures NoEventData(run)
      ensures result <= 0 && (result == 0 <==> eventsOpen)
      ensures result < 0 ==> run == [] && Shown() == old(Shown())
      ensures result == 0 ==> |run| == 1 && run[0].EventsOpened? && Streamable(run[0].answer)
    {
      run := [];
      var answer;
      result, answer := Exchange(CONTROL_QUERY_DESCRIPTOR, DESCRIPTOR_SIZE);
      if result < 0 {
        return;
      }
      var d := DecodeDescriptor(answer);
      if d.magic != DEVICE_MAGIC || d.version != CONTROL_VERSION || d.present == 0 {
        return -ENODEV, run;
      }
      result := SetNonblocking();
      if result < 0 {
        return;
      }
      run := [EventsOpened(d)];
      AfterMore(Shown(), [], EventsOpened(d));
      CloseEventStream();
      eventsOpen := true;
    }

    /** -EPROTO for a bad header, 0 for no news, 1 for a changed device; the old device's stream ends with it. */
    method ApplyHotplug(m: Hotplug) returns (result: int, ghost run: seq<Label>)
      requires Valid()
      modifies `device, `eventsOpen, `eventUsed, `state
      ensures Valid()
      ensures var l := Hotplugged(old(Shown()), m);
        Legal(l, run) && Shown() == After(l, run) && !Changed(l, run) && Shown().device == l.device
      ensures result == if !GoodHotplug(m) then -EPROTO else if Project(m.descriptor) == old(device) then 0 else 1
      ensures NoEventData(run)
    {
      run := [];
      if m.magic != HOTPLUG_MAGIC || m.version != CONTROL_VERSION {
        return -EPROTO, run;
      }
      var copy := Project(m.descriptor);
      if device == copy {
        return 0, run;
      }
      device := copy;
      CloseEventStream();
      if copy.present != 0 {
        var started;
        started, run := OpenEventStream();
      }
      result := 1;
    }

    method OpenMonitor() returns (result: int, ghost run: seq<Label>)
      requires Valid() && !monitorOpen
      modifies `monitorOpen, `monitorUsed, `device, `eventsOpen, `eventUsed, `state
      ensures Valid() && Legal(old(Shown()), run) && Shown() == After(old(Shown()), run)
      ensures result >= 0 ==> (result != 0 <==> Changed(old(Shown()), run))
      ensures NoEventData(run)
    {
      run := [];
      ghost var l := Shown();
      var first;
      result, first := Exchange(CONTROL_MONITOR, HOTPLUG_SIZE);
      if result < 0 {
        return;
      }
      result := SetNonblocking();
      if result < 0 {
        return;
      }
      monitorOpen, monitorUsed := true, 0;
      ghost var more;
      var m := DecodeHotplug(first);
      result, more := ApplyHotplug(m);
      AfterMore(l, [], MonitorOpened(m));
      run := [MonitorOpened(m)] + more;
      AfterAppend(l, [MonitorOpened(m)], more);
      ChangedAppend(l, [MonitorOpened(m)], more);
    }

    /** Bytes of the monitor stream; a complete announcement is applied. */
    method ReadMonitor(data: seq<byte>) returns (applied: int, ghost run: seq<Label>)
      requires Valid() && monitorOpen && 0 < |data| <= HOTPLUG_SIZE - monitorUsed
      modifies `monitorUsed, `device, `eventsOpen, `eventUsed, `state, monitorBuffer
      ensures Valid() && monitorOpen && Legal(old(Shown()), run) && Shown() == After(old(Shown()), run)
      ensures applied >= 0 ==> (applied != 0 <==> Changed(old(Shown()), run))
      ensures NoEventData(run)
    {
      ghost var l := Shown();
      ghost var left := monitorBuffer[..monitorUsed];
      Store(monitorBuffer, monitorUsed, data);
      ChangedOne(l, MonitorData(data));
      run, applied := [MonitorData(data)], 0;
      if monitorUsed + |data| < HOTPLUG_SIZE {
        monitorUsed := monitorUsed + |data|;
        return;
      }
      ghost var more;
      applied, more := ApplyBuffered(left + data);
      AfterAppend(l, run, more);
      ChangedAppend(l, run, more);
      run := run + more;
    }

    method ApplyBuffered(ghost b: seq<byte>) returns (result: int, ghost run: seq<Label>)
      requires Valid() && |b| == HOTPLUG_SIZE && monitorBuffer[..HOTPLUG_SIZE] == b
      modifies `monitorUsed, `device, `eventsOpen, `eventUsed, `state
      ensures Valid()
      ensures var l := Hotplugged(old(Shown()).(monitorLeft := []), DecodeHotplug(b));
        Legal(l, run) && Shown() == After(l, run) && !Changed(l, run)
      ensures result == if !GoodHotplug(DecodeHotplug(b)) then -EPROTO else if Project(DecodeHotplug(b).descriptor) == old(device) then 0 else 1
      ensures monitorOpen == old(monitorOpen)
      ensures NoEventData(run)
    {
      assert monitorBuffer[..] == b;
      monitorUsed := 0;
      result, run := ApplyHotplug(DecodeHotplug(monitorBuffer[..]));
    }

    /** The monitor is gone: so is the device, as far as the application can tell. */
    method DropMonitor() returns (ghost run: seq<Label>, lost: bool)
      requires Valid() && monitorOpen
      modifies this
      ensures Valid() && Legal(old(Shown()), run) && Shown() == After(old(Shown()), run)
      ensures lost == (old(device.present) != 0)
      ensures lost <==> Changed(old(Shown()), run)
      ensures NoEventData(run)
    {
      ghost var l := Shown();
      ChangedOne(l, MonitorLost);
      run := [MonitorLost];
      monitorOpen, monitorUsed := false, 0;
      lost := device.present != 0;
      if lost {
        device := device.(present := 0, deviceId := -1);
        CloseEventStream();
      }
    }

    /** 1 when presence, identity or profile changed, 0 otherwise, or an error. */
    method Refresh() returns (result: int, ghost run: seq<Label>)
      requires Valid()
      modifies this, monitorBuffer
      ensures Valid() && Legal(old(Shown()), run) && Shown() == After(old(Shown()), run)
      ensures result >= 0 ==> (result != 0 <==> Changed(old(Shown()), run))
      ensures NoEventData(run)
    {
      if !monitorOpen {
        result, run := OpenMonitor();
        return;
      }
      ghost var l := Shown();
      var changed := 0;
      var budget: nat := *;
      run := [];
      while true
        invariant Valid() && monitorOpen && Legal(l, run) && Shown() == After(l, run)
        invariant (changed != 0 <==> Changed(l, run)) && NoEventData(run)
        decreases budget
      {
        var r;
        r, budget := Recv(HOTPLUG_SIZE - monitorUsed, budget);
        match r
        case Some(data) =>
          ghost var more;
          var applied;
          applied, more := ReadMonitor(data);
          ChangedAppend(l, run, more);
          AfterAppend(l, run, more);
          run := run + more;
          if applied < 0 {
            return applied, run;
          }
          if applied > 0 {
            changed := 1;
          }
        case Interrupted =>
        case NotYet => return changed, run;
        case _ =>
          var lost;
          ghost var more;
          more, lost := DropMonitor();
          ChangedAppend(l, run, more);
          AfterAppend(l, run, more);
          run := run + more;
          return if lost then 1 else if r.Error? then -1 else changed, run;
      }
    }

    method ReadEvents(data: seq<byte>) returns (reports: nat)
      requires Valid() && eventsOpen && 0 < |data| <= EVENT_SIZE - eventUsed
      modifies `eventUsed, `state, eventBuffer
      ensures Valid() && Can(old(Shown()), EventData(data)) && Shown() == TakeEvents(old(Shown()), data)
      ensures reports == Reports(EventsIn(old(Shown()).eventLeft + data))
    {
      ghost var b := Shown().eventLeft + data;
      Store(eventBuffer, eventUsed, data);
      reports := 0;
      if eventUsed + |data| < EVENT_SIZE {
        eventUsed := eventUsed + |data|;
        return;
      }
      assert eventBuffer[..] == b;
      OneRecord(b);
      var e := DecodeRecord(eventBuffer[..]).event;
      ReplayOne(state, e);
      state := ProcessEvent(state, e);
      reports := if IsReport(e) then 1 else 0;
      eventUsed := 0;
    }

    method DrainSome(data: seq<byte>, ghost l: Lib, ghost run: seq<Label>, ghost received: seq<byte>, reports: int)
      returns (total: int)
      requires Valid() && eventsOpen && 0 < |data| <= EVENT_SIZE - eventUsed
      requires Draining(l, run, received, Shown(), reports)
      modifies `eventUsed, `state, eventBuffer
      ensures Valid() && Draining(l, run + [EventData(data)], received + data, Shown(), total)
    {
      ghost var k := Shown();
      var more := ReadEvents(data);
      DrainMore(l, run, received, k, reports, data);
      total := reports + more;
    }

    method DrainEnd(ghost l: Lib, ghost run: seq<Label>, ghost received: seq<byte>, ghost reports: int)
      requires Valid() && eventsOpen && Draining(l, run, received, Shown(), reports)
      modifies `eventsOpen, `eventUsed, `state
      ensures Valid() && Legal(l, run + [EventLost])
      ensures Shown() == After(l, run + [EventLost]) == EventsClosed(l)
    {
      DrainEnds(l, run, received, Shown(), reports);
      CloseEventStream();
    }

    /**
     * Drains the event stream. What was received is folded record by record, however it was broken
     * up, and the reports among it are counted; at the end of the stream all of it is dropped.
     */
    method Drain() returns (result: int, ended: bool, ghost received: seq<byte>, ghost run: seq<Label>)
      requires Valid() && eventsOpen
      modifies this, eventBuffer
      ensures Valid() && Legal(old(Shown()), run) && Shown() == After(old(Shown()), run)
      ensures Shown() == if ended then EventsClosed(old(Shown())) else Feed(old(Shown()), received)
      ensures result >= 0 || ended
      ensures result >= 0 ==> result == Reports(EventsIn(old(Shown()).eventLeft + received))
    {
      ghost var l := Shown();
      var budget: nat := *;
      var reports := 0;
      received, run := [], [];
      DrainStarts(l);
      var r;
      r, budget := Recv(EVENT_SIZE - eventUsed, budget);
      while r.Some? || r.Interrupted?
        invariant Valid() && eventsOpen && Draining(l, run, received, Shown(), reports)
        invariant r.Some? ==> 0 < |r.data| <= EVENT_SIZE - eventUsed
        decreases budget, r.Some? || r.Interrupted?
      {
        if r.Some? {
          reports := DrainSome(r.data, l, run, received, reports);
          received, run := received + r.data, run + [EventData(r.data)];
        }
        r, budget := Recv(EVENT_SIZE - eventUsed, budget);
      }
      result, ended := reports, !r.NotYet?;
      if ended {
        DrainEnd(l, run, received, reports);
        run := run + [EventLost];
        result := if r.Error? then -1 else reports;
      }
    }

    /** Refreshes, opens the event stream if there should be one, and drains it. */
    method Update() returns (result: int, ghost prefix: seq<Label>, ghost received: seq<byte>, ghost run: seq<Label>)
      requires Valid() && Life(Shown())
      modifies this, monitorBuffer, eventBuffer
      ensures Valid() && Legal(old(Shown()), run) && Shown() == After(old(Shown()), run) && Life(Shown())
      ensures prefix <= run && Legal(old(Shown()), prefix) && NoEventData(prefix)
      ensures var mid := After(old(Shown()), prefix);
        if !mid.events then Shown() == mid && received == [] && result <= 0
        else if !Shown().events then Shown() == EventsClosed(mid)
        else Shown() == Feed(mid, received) && result >= 0
      ensures result >= 0 ==> result == Reports(EventsIn(After(old(Shown()), prefix).eventLeft + received))
      ensures result >= 0 && OneStream(old(Shown()), prefix) ==> Called(old(Shown()), Call(prefix, received, result), Shown())
    {
      ghost var l := Shown();
      var refreshed;
      refreshed, run := Refresh();
      if !eventsOpen && device.present != 0 {
        ghost var more;
        var started;
        started, more := OpenEventStream();
        AfterAppend(l, run, more);
        run := run + more;
      }
      LifeAlways(l, run);
      prefix, received := run, [];
      if !eventsOpen {
        DrainStarts(Shown());
        return if refreshed < 0 then refreshed else 0, prefix, received, run;
      }
      var ended;
      ghost var more;
      result, ended, received, more := Drain();
      AfterAppend(l, run, more);
      run := run + more;
      LifeAlways(l, run);
    }
  }

  lemma {:induction false} ChangedAppend(l: Lib, run: seq<Label>, more: seq<Label>)
    requires Legal(l, run) && Legal(After(l, run), more)
    ensures Legal(l, run + more) && (Changed(l, run + more) <==> Changed(l, run) || Changed(After(l, run), more))
    decreases |more|
  {
    AfterAppend(l, run, more);
    if more == [] {
      assert run + more == run;
    } else {
      ChangedAppend(l, run, more[..|more| - 1]);
      AfterAppend(l, run, more[..|more| - 1]);
      assert (run + more)[..|run + more| - 1] == run + more[..|more| - 1];
    }
  }

  lemma ChangedOne(l: Lib, a: Label)
    requires Can(l, a)
    ensures Legal(l, [a]) && After(l, [a]) == Do(l, a)
    ensures Changed(l, [a]) <==> Do(l, a).device != l.device
  {
    AfterMore(l, [], a);
    assert [] + [a] == [a] && [a][..0] == [];
  }
}
