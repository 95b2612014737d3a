/** The client library as a value: two streams, a copy of the descriptor and a replica of the controls. */
module LibraryModel {
  import opened Bytes
  import opened Protocol
  import opened Controller

  const CAP_RUMBLE: byte := 1
  const CAP_TRIGGER_RUMBLE: byte := 2

  /** The descriptor as the library shows it; the name ends at its first zero byte. */
  datatype Device = Device(
    present: byte, capabilities: byte, inputMode: byte,
    vendorId: u32, productId: u32, deviceId: s32, name: seq<byte>)

  const ABSENT := Device(0, 0, 0, 0, 0, -1, [])

  function CText(s: seq<byte>, limit: nat): (t: seq<byte>)
    ensures |t| <= limit && t <= s && 0 !in t
    ensures |t| < limit && |t| < |s| ==> s[|t|] == 0
  {
    if s == [] || s[0] == 0 || limit == 0 then [] else [s[0]] + CText(s[1..], limit - 1)
  }

  /** What the library keeps of the bridge's descriptor. */
  function Project(d: DeviceDescriptor): Device {
    Device(d.present, if d.capabilities % 2 == 1 then CAP_RUMBLE + CAP_TRIGGER_RUMBLE else 0, d.inputMode,
           d.vendorId, d.productId, d.deviceId, CText(d.name, 63))
  }

  /** A name survives being stored in a fixed field, padded with zeros, and read back. */
  lemma {:induction false} TextSurvives(t: seq<byte>, padding: seq<byte>, limit: nat)
    requires 0 !in t && |t| <= limit && (padding == [] ==> |t| == limit) && forall k :: 0 <= k < |padding| ==> padding[k] == 0
    ensures CText(t + padding, limit) == t
    decreases |t|
  {
    if t != [] {
      TextSurvives(t[1..], padding, limit - 1);
      assert (t + padding)[1..] == t[1..] + padding;
    }
  }

  datatype Lib = Lib(
    monitor: bool, events: bool, device: Device, replica: Replica,
    monitorLeft: seq<byte>, eventLeft: seq<byte>)

  const CREATED := Lib(false, false, ABSENT, RESET, [], [])

  // ---------------------------------------------------------------- transitions

  function EventsClosed(l: Lib): Lib {
    l.(events := false, eventLeft := [], replica := RESET)
  }

  predicate GoodHotplug(m: Hotplug) { m.magic == HOTPLUG_MAGIC && m.version == CONTROL_VERSION }

  /** An answer to QUERY on which an event stream is opened. */
  predicate Streamable(d: DeviceDescriptor) {
    d.magic == DEVICE_MAGIC && d.version == CONTROL_VERSION && d.present != 0
  }

  /** A message with a bad header changes nothing, nor does one that tells nothing new. */
  function Hotplugged(l: Lib, m: Hotplug): Lib {
    if !GoodHotplug(m) || Project(m.descriptor) == l.device then l
    else EventsClosed(l).(device := Project(m.descriptor))
  }

  function MonitorGone(l: Lib): Lib {
    var k := l.(monitor := false, monitorLeft := []);
    if l.device.present != 0 then EventsClosed(k).(device := l.device.(present := 0, deviceId := -1)) else k
  }

  function TakeMonitor(l: Lib, data: seq<byte>): Lib
    requires |l.monitorLeft| + |data| <= HOTPLUG_SIZE
  {
    var b := l.monitorLeft + data;
    if |b| == HOTPLUG_SIZE then Hotplugged(l.(monitorLeft := []), DecodeHotplug(b)) else l.(monitorLeft := b)
  }

  function TakeEvents(l: Lib, data: seq<byte>): Lib
    requires |l.eventLeft| + |data| <= EVENT_SIZE
  {
    var b := l.eventLeft + data;
    if |b| == EVENT_SIZE then
      l.(eventLeft := [], replica := ProcessEvent(l.replica, DecodeRecord(b).event))
    else l.(eventLeft := b)
  }

  /** What can happen to the library; opening a stream is an exchange that ends with the bridge's answer. */
  datatype Label =
    | MonitorOpened(first: Hotplug)
    | EventsOpened(answer: DeviceDescriptor)
    | MonitorData(data: seq<byte>)
    | MonitorLost
    | EventData(data: seq<byte>)
    | EventLost

  predicate Can(l: Lib, a: Label) {
    match a
    case MonitorOpened(_) => !l.monitor
    case EventsOpened(answer) => !l.events && l.device.present != 0 && Streamable(answer)
    case MonitorData(data) => l.monitor && 0 < |data| <= HOTPLUG_SIZE - |l.monitorLeft|
    case MonitorLost => l.monitor
    case EventData(data) => l.events && 0 < |data| <= EVENT_SIZE - |l.eventLeft|
    case EventLost => l.events
  }

  function Do(l: Lib, a: Label): Lib
    requires Can(l, a)
  {
    match a
    case MonitorOpened(first) => Hotplugged(l.(monitor := true, monitorLeft := []), first)
    case EventsOpened(_) => EventsClosed(l).(events := true)
    case MonitorData(data) => TakeMonitor(l, data)
    case MonitorLost => MonitorGone(l)
    case EventData(data) => TakeEvents(l, data)
    case EventLost => EventsClosed(l)
  }

  /** A list of happenings that is possible from l on, and where it leads. */
  predicate Legal(l: Lib, run: seq<Label>)
    decreases |run|, 0
  {
    run == [] || (Legal(l, run[..|run| - 1]) && Can(After(l, run[..|run| - 1]), run[|run| - 1]))
  }

  function After(l: Lib, run: seq<Label>): Lib
    requires Legal(l, run)
    decreases |run|, 1
  {
    if run == [] then l else Do(After(l, run[..|run| - 1]), run[|run| - 1])
  }

  lemma AfterMore(l: Lib, run: seq<Label>, a: Label)
    requires Legal(l, run) && Can(After(l, run), a)
    ensures Legal(l, run + [a]) && After(l, run + [a]) == Do(After(l, run), a)
  {
    assert (run + [a])[..|run|] == run;
  }

  lemma {:induction false} AfterAppend(l: Lib, run: seq<Label>, more: seq<Label>)
    requires Legal(l, run) && Legal(After(l, run), more)
    ensures Legal(l, run + more) && After(l, run + more) == After(After(l, run), more)
    decreases |more|
  {
    if more == [] {
      assert run + more == run;
    } else {
      var n := |more| - 1;
      AppendLast(run, more);
      AfterAppend(l, run, more[..n]);
      AfterMore(l, run + more[..n], more[n]);
    }
  }

  // ------------------------------------------------------------------ lifecycle

  /** An open event stream needs a monitor and a present device; without one the replica is at rest. */
  ghost predicate Life(l: Lib) {
    && (l.events ==> l.monitor && l.device.present != 0)
    && (!l.events ==> l.replica == RESET && l.eventLeft == [])
    && (!l.monitor ==> l.device.present == 0 && l.monitorLeft == [])
    && |l.monitorLeft| < HOTPLUG_SIZE && |l.eventLeft| < EVENT_SIZE
  }

  lemma LifeKept(l: Lib, a: Label)
    requires Life(l) && Can(l, a)
    ensures Life(Do(l, a))
  {}

  /** Over every sequence of calls, reconnects, protocol errors and losses. */
  lemma {:induction false} LifeAlways(l: Lib, run: seq<Label>)
    requires Life(l) && Legal(l, run)
    ensures Life(After(l, run))
    decreases |run|
  {
    if run != [] {
      LifeAlways(l, run[..|run| - 1]);
      LifeKept(After(l, run[..|run| - 1]), run[|run| - 1]);
    }
  }

  // ------------------------------------------------------------------- decoding

  function EventsIn(s: seq<byte>): seq<Event> {
    Bodies(DecodeRecords(Records(s, EVENT_SIZE)))
  }

  /** The library after bytes of its event stream, however they arrive. */
  function Feed(l: Lib, bytes: seq<byte>): Lib {
    l.(replica := Replay(l.replica, EventsIn(l.eventLeft + bytes)), eventLeft := Rest(l.eventLeft + bytes, EVENT_SIZE))
  }

  lemma OneRecord(b: seq<byte>)
    requires |b| == EVENT_SIZE
    ensures EventsIn(b) == [DecodeRecord(b).event] && Rest(b, EVENT_SIZE) == []
  {
    assert b[..EVENT_SIZE] == b && b[EVENT_SIZE..] == [];
    assert Records(b, EVENT_SIZE) == [b];
  }

  lemma ReplayOne(r: Replica, e: Event)
    ensures Replay(r, [e]) == ProcessEvent(r, e)
    ensures Reports([e]) == if IsReport(e) then 1 else 0
  {
    assert [e][..0] == [];
  }

  /** One recv is a feed, ... */
  lemma TakeIsFeed(l: Lib, data: seq<byte>)
    requires |l.eventLeft| + |data| <= EVENT_SIZE
    ensures TakeEvents(l, data) == Feed(l, data)
  {
    var b := l.eventLeft + data;
    if |b| == EVENT_SIZE {
      OneRecord(b);
      ReplayOne(l.replica, DecodeRecord(b).event);
    } else {
      assert EventsIn(b) == [];
    }
  }

  lemma EventsInAppend(a: seq<byte>, b: seq<byte>)
    ensures EventsIn(a + b) == EventsIn(a) + EventsIn(Rest(a, EVENT_SIZE) + b)
  {
    var x, y := Records(a, EVENT_SIZE), Records(Rest(a, EVENT_SIZE) + b, EVENT_SIZE);
    CutsCompose(a, b, EVENT_SIZE);
    DecodeRecordsAppend(x, y);
    BodiesAppend(DecodeRecords(x), DecodeRecords(y));
  }

  /** ... and feeds compose: what counts is the whole stream. */
  lemma FeedCompose(l: Lib, a: seq<byte>, b: seq<byte>)
    ensures Feed(Feed(l, a), b) == Feed(l, a + b)
    ensures Reports(EventsIn(l.eventLeft + (a + b))) ==
      Reports(EventsIn(l.eventLeft + a)) + Reports(EventsIn(Feed(l, a).eventLeft + b))
  {
    var s := l.eventLeft + a;
    Regroup(l.eventLeft, a, b);
    EventsInAppend(s, b);
    CutsCompose(s, b, EVENT_SIZE);
    ReplayAppend(l.replica, EventsIn(s), EventsIn(Rest(s, EVENT_SIZE) + b));
  }

  /** In the middle of draining the event stream. */
  ghost predicate Draining(l: Lib, run: seq<Label>, received: seq<byte>, k: Lib, reports: int) {
    && Legal(l, run) && After(l, run) == k == Feed(l, received)
    && reports == Reports(EventsIn(l.eventLeft + received))
  }

  lemma DrainStarts(l: Lib)
    requires |l.eventLeft| < EVENT_SIZE
    ensures Draining(l, [], [], l, 0)
  {
    assert l.eventLeft + [] == l.eventLeft;
    assert EventsIn(l.eventLeft) == [];
  }

  lemma DrainMore(l: Lib, run: seq<Label>, received: seq<byte>, k: Lib, reports: int, data: seq<byte>)
    requires Draining(l, run, received, k, reports) && Can(k, EventData(data))
    ensures Draining(l, run + [EventData(data)], received + data, TakeEvents(k, data),
                     reports + Reports(EventsIn(k.eventLeft + data)))
  {
    AfterMore(l, run, EventData(data));
    TakeIsFeed(k, data);
    FeedCompose(l, received, data);
  }

  lemma DrainEnds(l: Lib, run: seq<Label>, received: seq<byte>, k: Lib, reports: int)
    requires Draining(l, run, received, k, reports) && k.events
    ensures Legal(l, run + [EventLost]) && After(l, run + [EventLost]) == EventsClosed(k) == EventsClosed(l)
  {
    AfterMore(l, run, EventLost);
  }

  /** The library after a list of recv results. */
  function FeedAll(l: Lib, chunks: seq<seq<byte>>): Lib {
    if chunks == [] then l else Feed(FeedAll(l, chunks[..|chunks| - 1]), chunks[|chunks| - 1])
  }

  /** Any two ways to break up the same stream leave the same replica and the same rest. */
  lemma {:induction false} SplitIrrelevant(l: Lib, chunks: seq<seq<byte>>)
    requires |l.eventLeft| < EVENT_SIZE
    ensures FeedAll(l, chunks) == Feed(l, Join(chunks))
  {
    if chunks == [] {
      assert l.eventLeft + [] == l.eventLeft;
    } else {
      SplitIrrelevant(l, chunks[..|chunks| - 1]);
      JoinLast(chunks);
      FeedCompose(l, Join(chunks[..|chunks| - 1]), chunks[|chunks| - 1]);
    }
  }

  /** The reports counted by calls that are handed the stream chunk by chunk. */
  function CountedReports(l: Lib, chunks: seq<seq<byte>>): nat {
    if chunks == [] then 0
    else
      var front, last := chunks[..|chunks| - 1], chunks[|chunks| - 1];
      CountedReports(l, front) + Reports(EventsIn(FeedAll(l, front).eventLeft + last))
  }

  /** They add up to the reports of the whole stream. */
  lemma {:induction false} ReportsAddUp(l: Lib, chunks: seq<seq<byte>>)
    requires |l.eventLeft| < EVENT_SIZE
    ensures CountedReports(l, chunks) == Reports(EventsIn(l.eventLeft + Join(chunks)))
  {
    if chunks == [] {
      assert l.eventLeft + [] == l.eventLeft;
      assert EventsIn(l.eventLeft) == [];
    } else {
      var front := chunks[..|chunks| - 1];
      ReportsAddUp(l, front);
      SplitIrrelevant(l, front);
      JoinLast(chunks);
      FeedCompose(l, Join(front), chunks[|chunks| - 1]);
    }
  }

  // -------------------------------------------------------------- whole calls

  /** Nothing of the event stream is read in this run. */
  ghost predicate NoEventData(run: seq<Label>) { forall a :: a in run ==> !a.EventData? && !a.EventLost? }

  /** The event stream is open all along, so it is one and the same. */
  ghost predicate OneStream(l: Lib, run: seq<Label>)
    requires Legal(l, run)
  {
    After(l, run).events && (run == [] || OneStream(l, run[..|run| - 1]))
  }

  lemma {:induction false} StreamUntouched(l: Lib, run: seq<Label>)
    requires Legal(l, run) && OneStream(l, run) && NoEventData(run)
    ensures After(l, run).replica == l.replica && After(l, run).eventLeft == l.eventLeft && l.events
  {
    if run != [] {
      var front, a := run[..|run| - 1], run[|run| - 1];
      assert forall b :: b in front ==> b in run;
      StreamUntouched(l, front);
      assert a in run;
    }
  }

  /** One call of update: what came before the draining, what was received, and what it returned. */
  datatype Call = Call(prefix: seq<Label>, received: seq<byte>, result: int)

  /** A call that draws on a stream that was open before, and leaves it open or comes to its end. */
  ghost predicate Called(l: Lib, c: Call, k: Lib) {
    && Legal(l, c.prefix) && NoEventData(c.prefix) && OneStream(l, c.prefix)
    && var mid := After(l, c.prefix);
       && c.result == Reports(EventsIn(mid.eventLeft + c.received))
       && (k == Feed(mid, c.received) || k == EventsClosed(mid))
  }

  function Received(calls: seq<Call>): seq<byte> {
    if calls == [] then [] else Received(calls[..|calls| - 1]) + calls[|calls| - 1].received
  }

  function Results(calls: seq<Call>): int {
    if calls == [] then 0 else Results(calls[..|calls| - 1]) + calls[|calls| - 1].result
  }

  /** The stream since l: total reports so far, and what has been folded while it is open. */
  ghost predicate Totals(l: Lib, k: Lib, received: seq<byte>, total: int) {
    && total == Reports(EventsIn(l.eventLeft + received))
    && (k.events ==> k.replica == Feed(l, received).replica && k.eventLeft == Feed(l, received).eventLeft)
  }

  lemma OneMoreCall(l: Lib, k: Lib, received: seq<byte>, total: int, c: Call, after: Lib)
    requires Totals(l, k, received, total) && Called(k, c, after)
    ensures Totals(l, after, received + c.received, total + c.result)
  {
    StreamUntouched(k, c.prefix);
    FeedCompose(l, received, c.received);
  }

  lemma NoCalls(l: Lib)
    requires |l.eventLeft| < EVENT_SIZE
    ensures Totals(l, l, [], 0)
  {
    DrainStarts(l);
    assert l.eventLeft + [] == l.eventLeft;
  }

  /**
   * Over any series of calls on one stream, its end included, the results add up to the reports of
   * everything received, and while the stream is open the replica is what that says.
   */
  lemma {:induction false} CallsAddUp(ls: seq<Lib>, calls: seq<Call>)
    requires |ls| == |calls| + 1 && |ls[0].eventLeft| < EVENT_SIZE
    requires forall n :: 0 <= n < |calls| ==> Called(ls[n], calls[n], ls[n + 1])
    ensures Totals(ls[0], ls[|calls|], Received(calls), Results(calls))
  {
    if calls == [] {
      NoCalls(ls[0]);
    } else {
      var n := |calls| - 1;
      CallsAddUp(ls[..n + 1], calls[..n]);
      OneMoreCall(ls[0], ls[n], Received(calls[..n]), Results(calls[..n]), calls[n], ls[n + 1]);
    }
  }
}
