/**
 * The bridge and one client of the library, with the bytes in flight between them: the replica
 * agrees with the bridge in every run.
 */
module WholeSystem {
  import opened Bytes
  import opened Protocol
  import opened Controller
  import opened HubModel
  import opened HubSteps
  import opened HubLaws
  import opened LibraryModel
  import opened Links

  /**
   * The library's end of a connection: the slot at the bridge's end, or what became of it once the
   * bridge has closed it, and the number of bytes the library has taken.
   */
  datatype Link =
    | Unlinked
    | Attached(i: nat, taken: nat)
    | Detached(end: Slot, taken: nat)

  /** The library is blocked while it waits for the first bytes of a connection. */
  datatype Phase = Idle | OpeningMonitor | OpeningEvents

  datatype Sys = Sys(hub: Hub, lib: Lib, phase: Phase, monitor: Link, events: Link)

  predicate Sound(k: Link) { k.Attached? ==> k.i < 16 }

  function End(h: Hub, k: Link): Slot
    requires Sound(k) && !k.Unlinked?
  {
    if k.Attached? then h.slots[k.i] else k.end
  }

  /** A connection the bridge closed keeps what had been sent on it. */
  function Relinked(g: Hub, k: Link): Link
    requires Sound(k)
  {
    if k.Attached? && !g.slots[k.i].open then Detached(g.slots[k.i], k.taken) else k
  }

  function EventsKept(l: Lib, k: Link): Link { if l.events then k else Unlinked }

  datatype Move =
    | Bridge(s: Step)
    | ConnectMonitor(i: nat)
    | ConnectEvents(i: nat)
    | FinishMonitor
    | FinishEvents
    | GiveUp
    | ReadMonitor(n: nat)
    | ReadEvents(n: nat)
    | LoseMonitor
    | LoseEvents

  /** The commands the bridge gets from these connections are those the library sends. */
  ghost predicate Commanded(y: Sys, s: Step)
    requires Sound(y.monitor) && Sound(y.events)
  {
    && (y.monitor.Attached? ==> MonitorObeyed(y.hub, s, y.monitor.i))
    && (y.events.Attached? ==> EventsObeyed(y.hub, s, y.events.i))
  }

  ghost predicate BridgeMoved(y: Sys, s: Step, z: Sys) {
    && Sound(y.monitor) && Sound(y.events)
    && Next(y.hub, s, z.hub) && Commanded(y, s)
    && z == y.(hub := z.hub, monitor := Relinked(z.hub, y.monitor), events := Relinked(z.hub, y.events))
  }

  ghost predicate MonitorConnected(y: Sys, i: nat, z: Sys) {
    && y.phase == Idle && !y.lib.monitor && i < 16 && AcceptedAt(y.hub, z.hub, i)
    && z == y.(hub := z.hub, phase := OpeningMonitor, monitor := Attached(i, 0))
  }

  ghost predicate EventsConnected(y: Sys, i: nat, z: Sys) {
    && y.phase == Idle && !y.lib.events && y.lib.device.present != 0 && i < 16 && AcceptedAt(y.hub, z.hub, i)
    && z == y.(hub := z.hub, phase := OpeningEvents, events := Attached(i, 0))
  }

  /** n bytes past those taken are there to be read. */
  ghost predicate Readable(h: Hub, k: Link, n: nat) {
    !k.Unlinked? && Sound(k) && WellSent(End(h, k)) && k.taken + n <= End(h, k).sent
  }

  function ReadFrom(h: Hub, k: Link, n: nat): seq<byte>
    requires Readable(h, k, n)
  {
    LogBytes(End(h, k).log)[k.taken..k.taken + n]
  }

  function Past(k: Link, n: nat): Link
    requires !k.Unlinked?
  {
    k.(taken := k.taken + n)
  }

  /** The first announcement has arrived. */
  ghost predicate MonitorFinished(y: Sys, z: Sys) {
    && y.phase == OpeningMonitor && !y.lib.monitor && Readable(y.hub, y.monitor, HOTPLUG_SIZE)
    && var l := Do(y.lib, MonitorOpened(DecodeHotplug(ReadFrom(y.hub, y.monitor, HOTPLUG_SIZE))));
       z == y.(lib := l, phase := Idle, monitor := Past(y.monitor, HOTPLUG_SIZE))
  }

  /** The descriptor has arrived; a stream without a present device is given up. */
  ghost predicate EventsFinished(y: Sys, z: Sys) {
    && y.phase == OpeningEvents && !y.lib.events && y.lib.device.present != 0
    && Readable(y.hub, y.events, DESCRIPTOR_SIZE)
    && var d := DecodeDescriptor(ReadFrom(y.hub, y.events, DESCRIPTOR_SIZE));
       z == if Streamable(d)
            then y.(lib := Do(y.lib, EventsOpened(d)), phase := Idle, events := Past(y.events, DESCRIPTOR_SIZE))
            else y.(phase := Idle, events := Unlinked)
  }

  ghost predicate GivenUp(y: Sys, z: Sys) {
    match y.phase
    case Idle => false
    case OpeningMonitor => z == y.(phase := Idle, monitor := Unlinked)
    case OpeningEvents => z == y.(phase := Idle, events := Unlinked)
  }

  ghost predicate MonitorReadBy(y: Sys, n: nat, z: Sys) {
    && y.phase == Idle && Readable(y.hub, y.monitor, n)
    && Can(y.lib, MonitorData(ReadFrom(y.hub, y.monitor, n)))
    && var l := Do(y.lib, MonitorData(ReadFrom(y.hub, y.monitor, n)));
       z == y.(lib := l, monitor := Past(y.monitor, n), events := EventsKept(l, y.events))
  }

  ghost predicate EventsReadBy(y: Sys, n: nat, z: Sys) {
    && y.phase == Idle && Readable(y.hub, y.events, n)
    && Can(y.lib, EventData(ReadFrom(y.hub, y.events, n)))
    && z == y.(lib := Do(y.lib, EventData(ReadFrom(y.hub, y.events, n))), events := Past(y.events, n))
  }

  ghost predicate MonitorLostBy(y: Sys, z: Sys) {
    && y.phase == Idle && y.lib.monitor
    && var l := Do(y.lib, MonitorLost);
       z == y.(lib := l, monitor := Unlinked, events := EventsKept(l, y.events))
  }

  ghost predicate EventsLostBy(y: Sys, z: Sys) {
    && y.phase == Idle && y.lib.events
    && z == y.(lib := Do(y.lib, EventLost), events := Unlinked)
  }

  ghost predicate Moved(y: Sys, m: Move, z: Sys) {
    match m
    case Bridge(s) => BridgeMoved(y, s, z)
    case ConnectMonitor(i) => MonitorConnected(y, i, z)
    case ConnectEvents(i) => EventsConnected(y, i, z)
    case FinishMonitor => MonitorFinished(y, z)
    case FinishEvents => EventsFinished(y, z)
    case GiveUp => GivenUp(y, z)
    case ReadMonitor(n) => MonitorReadBy(y, n, z)
    case ReadEvents(n) => EventsReadBy(y, n, z)
    case LoseMonitor => MonitorLostBy(y, z)
    case LoseEvents => EventsLostBy(y, z)
  }

  // ------------------------------------------------------------------ invariant

  /** The bytes s of a monitor stream, read up to taken: what does not fill an announcement is kept. */
  ghost predicate MonitorBytesRead(l: Lib, s: seq<byte>, taken: nat) {
    HOTPLUG_SIZE <= taken <= |s| && l.monitorLeft == s[HOTPLUG_SIZE * (taken / HOTPLUG_SIZE)..taken]
  }

  /** Of the announcements of a log the first n have been applied. */
  ghost predicate Applied(l: Lib, log: seq<Msg>, n: nat) {
    0 < n <= |log| && log[n - 1].body.Announce? && l.device == Project(log[n - 1].body.hotplug.descriptor)
  }

  ghost predicate MonitorRead(l: Lib, t: Slot, taken: nat) {
    && taken <= t.sent
    && MonitorBytesRead(l, LogBytes(t.log), taken)
    && Applied(l, t.log, taken / HOTPLUG_SIZE)
  }

  /** The bytes s of an event stream, read up to taken: whole records are folded, the rest is kept. */
  ghost predicate EventBytesRead(l: Lib, s: seq<byte>, taken: nat) {
    DESCRIPTOR_SIZE <= taken <= |s| && FoldedTo(l, s[DESCRIPTOR_SIZE..taken])
  }

  ghost predicate FoldedTo(l: Lib, b: seq<byte>) {
    l.eventLeft == Rest(b, EVENT_SIZE) && l.replica == Replay(RESET, EventsIn(b))
  }

  ghost predicate Live(log: seq<Msg>) {
    |log| > 0 && log[0].body.Descriptor? && log[0].body.descriptor.present != 0
  }

  ghost predicate EventRead(l: Lib, t: Slot, taken: nat) {
    && taken <= t.sent && Live(t.log)
    && EventBytesRead(l, LogBytes(t.log), taken)
  }

  /** The stream belongs to a device that is no longer there. */
  ghost predicate Outdated(h: Hub, t: Slot) {
    t.greetings == 1 && Live(t.log) && t.epoch < h.epoch
  }

  /** The library has yet to hear that the device went away: by announcement, or by the end of the stream. */
  ghost predicate Due(h: Hub, k: Link)
    requires Sound(k)
  {
    k.Detached? || (k.Attached? && RemoveAfter(h.slots[k.i].log, k.taken / HOTPLUG_SIZE))
  }

  ghost predicate Linked(h: Hub, k: Link) {
    Sound(k) && (k.Attached? ==> h.slots[k.i].open)
  }

  ghost predicate MonitorSide(h: Hub, l: Lib, phase: Phase, k: Link) {
    match k
    case Unlinked => phase != OpeningMonitor && !l.monitor
    case _ =>
      && Linked(h, k)
      && if phase == OpeningMonitor then !l.monitor && k.taken == 0
         else l.monitor && MonitorRead(l, End(h, k), k.taken)
  }

  ghost predicate EventSide(h: Hub, l: Lib, phase: Phase, k: Link) {
    match k
    case Unlinked => phase != OpeningEvents && !l.events
    case _ =>
      && Linked(h, k)
      && if phase == OpeningEvents then !l.events && l.device.present != 0 && k.taken == 0
         else l.events && EventRead(l, End(h, k), k.taken)
  }

  /** A stream of a past device is only held while news of its end is on the way. */
  ghost predicate Told(h: Hub, monitor: Link, events: Link) {
    match events
    case Unlinked => true
    case _ => Sound(monitor) && Sound(events) && (Outdated(h, End(h, events)) ==> Due(h, monitor))
  }

  /** How the library and the bridge hang together. */
  ghost predicate Coupled(y: Sys) {
    match y
    case Sys(h, l, phase, monitor, events) =>
      && Life(l)
      && MonitorSide(h, l, phase, monitor) && EventSide(h, l, phase, events)
      && (monitor.Attached? && events.Attached? ==> monitor.i != events.i)
      && Told(h, monitor, events)
  }

  /** Each connection is of the kind the library asked for. */
  ghost predicate Kinds(h: Hub, monitor: Link, events: Link) {
    && Sound(monitor) && Sound(events)
    && (!monitor.Unlinked? ==> MonitorSlot(End(h, monitor)))
    && (!events.Unlinked? ==> EventSlot(End(h, events)))
  }

  ghost predicate Inv(y: Sys) {
    match y
    case Sys(h, _, _, monitor, events) => HubInv(h) && Kinds(h, monitor, events) && Coupled(y)
  }

  lemma CreatedInv(h: Hub)
    requires HubInv(h)
    ensures Inv(Sys(h, CREATED, Idle, Unlinked, Unlinked))
  {}

  // --------------------------------------------------------- steps of the bridge

  lemma PrefixSlice(a: seq<byte>, b: seq<byte>, i: nat, j: nat)
    requires a <= b && i <= j <= |a|
    ensures a[i..j] == b[i..j]
  {}

  lemma MonitorReadGrows(l: Lib, s: Slot, t: Slot, taken: nat)
    requires MonitorRead(l, s, taken) && s.log <= t.log && s.sent <= t.sent
    ensures MonitorRead(l, t, taken)
  {
    LogBytesGrow(s.log, t.log);
    PrefixSlice(LogBytes(s.log), LogBytes(t.log), HOTPLUG_SIZE * (taken / HOTPLUG_SIZE), taken);
    assert t.log[taken / HOTPLUG_SIZE - 1] == s.log[taken / HOTPLUG_SIZE - 1];
  }

  lemma EventReadGrows(l: Lib, s: Slot, t: Slot, taken: nat)
    requires EventRead(l, s, taken) && s.log <= t.log && s.sent <= t.sent
    ensures EventRead(l, t, taken)
  {
    LogBytesGrow(s.log, t.log);
    PrefixSlice(LogBytes(s.log), LogBytes(t.log), DESCRIPTOR_SIZE, taken);
    assert t.log[0] == s.log[0];
  }

  lemma MonitorSideGrows(h: Hub, g: Hub, l: Lib, phase: Phase, k: Link)
    requires k.Attached? && k.i < 16 && MonitorSide(h, l, phase, k)
    requires h.slots[k.i].log <= g.slots[k.i].log && h.slots[k.i].sent <= g.slots[k.i].sent
    ensures MonitorSide(g, l, phase, Relinked(g, k))
  {
    if phase != OpeningMonitor {
      MonitorReadGrows(l, h.slots[k.i], g.slots[k.i], k.taken);
    }
  }

  /** What a step may do to the far end of a monitor connection. */
  lemma MonitorEndStep(h: Hub, s: Step, g: Hub, k: Link)
    requires HubInv(h) && Next(h, s, g) && Linked(h, k) && k.Attached?
    requires MonitorObeyed(h, s, k.i) && MonitorSlot(h.slots[k.i])
    ensures MonitorSlot(g.slots[k.i])
    ensures h.slots[k.i].log <= g.slots[k.i].log && h.slots[k.i].sent <= g.slots[k.i].sent
  {
    MonitorStep(h, s, g, k.i);
  }

  lemma MonitorSideStep(h: Hub, g: Hub, l: Lib, phase: Phase, k: Link)
    requires MonitorSide(h, l, phase, k) && Sound(k)
    requires k.Attached? ==> h.slots[k.i].log <= g.slots[k.i].log && h.slots[k.i].sent <= g.slots[k.i].sent
    ensures MonitorSide(g, l, phase, Relinked(g, k))
  {
    if k.Attached? {
      MonitorSideGrows(h, g, l, phase, k);
    }
  }

  lemma MonitorKindStep(h: Hub, g: Hub, k: Link)
    requires Sound(k) && !k.Unlinked? && MonitorSlot(End(h, k))
    requires k.Attached? ==> MonitorSlot(g.slots[k.i])
    ensures MonitorSlot(End(g, Relinked(g, k)))
  {}

  lemma EventSideGrows(h: Hub, g: Hub, l: Lib, phase: Phase, k: Link)
    requires k.Attached? && k.i < 16 && EventSide(h, l, phase, k)
    requires h.slots[k.i].log <= g.slots[k.i].log && h.slots[k.i].sent <= g.slots[k.i].sent
    ensures EventSide(g, l, phase, Relinked(g, k))
  {
    if phase != OpeningEvents {
      EventReadGrows(l, h.slots[k.i], g.slots[k.i], k.taken);
    }
  }

  /** What a step may do to the far end of an event connection. */
  lemma EventEndStep(h: Hub, s: Step, g: Hub, k: Link)
    requires HubInv(h) && Next(h, s, g) && Linked(h, k) && k.Attached?
    requires EventsObeyed(h, s, k.i) && EventSlot(h.slots[k.i])
    ensures EventSlot(g.slots[k.i])
    ensures h.slots[k.i].log <= g.slots[k.i].log && h.slots[k.i].sent <= g.slots[k.i].sent
  {
    EventsStep(h, s, g, k.i);
  }

  lemma EventSideStep(h: Hub, g: Hub, l: Lib, phase: Phase, k: Link)
    requires EventSide(h, l, phase, k) && Sound(k)
    requires k.Attached? ==> h.slots[k.i].log <= g.slots[k.i].log && h.slots[k.i].sent <= g.slots[k.i].sent
    ensures EventSide(g, l, phase, Relinked(g, k))
  {
    if k.Attached? {
      EventSideGrows(h, g, l, phase, k);
    }
  }

  lemma EventKindStep(h: Hub, g: Hub, k: Link)
    requires Sound(k) && !k.Unlinked? && EventSlot(End(h, k))
    requires k.Attached? ==> EventSlot(g.slots[k.i])
    ensures EventSlot(End(g, Relinked(g, k)))
  {}

  lemma RemoveStays(a: seq<Msg>, b: seq<Msg>, n: nat)
    requires a <= b && RemoveAfter(a, n)
    ensures RemoveAfter(b, n)
  {
    var k :| n <= k < |a| && Action(a[k]) == HOTPLUG_REMOVE as int;
    assert b[k] == a[k];
  }

  lemma RemoveEarlier(a: seq<Msg>, m: nat, n: nat)
    requires n <= m && RemoveAfter(a, m)
    ensures RemoveAfter(a, n)
  {
    var k :| m <= k < |a| && Action(a[k]) == HOTPLUG_REMOVE as int;
  }

  /** A stream that becomes outdated by a step was opened before it, in the epoch that ends with it. */
  lemma OutdatedBefore(h: Hub, s: Step, g: Hub, k: Link)
    requires HubInv(h) && Linked(h, k) && !k.Unlinked? && EventSlot(End(h, k)) && Next(h, s, g)
    requires k.Attached? ==> EventsObeyed(h, s, k.i)
    requires Outdated(g, End(g, Relinked(g, k)))
    ensures Outdated(h, End(h, k)) || h.epoch < g.epoch
  {
    if k.Attached? {
      EventsStep(h, s, g, k.i);
    }
  }

  /** No device goes away unannounced. */
  lemma DueStep(h: Hub, s: Step, g: Hub, l: Lib, phase: Phase, k: Link)
    requires HubInv(h) && Next(h, s, g) && MonitorSide(h, l, phase, k) && l.monitor
    requires Sound(k) && (k.Attached? ==> MonitorObeyed(h, s, k.i) && MonitorSlot(End(h, k)))
    requires Linked(h, k) && (Due(h, k) || h.epoch < g.epoch)
    ensures Due(g, Relinked(g, k))
  {
    if k.Attached? && g.slots[k.i].open {
      var a, b := h.slots[k.i], g.slots[k.i];
      MonitorStep(h, s, g, k.i);
      if Due(h, k) {
        RemoveStays(a.log, b.log, k.taken / HOTPLUG_SIZE);
      } else {
        RemoveEarlier(b.log, |a.log|, k.taken / HOTPLUG_SIZE);
      }
    }
  }

  /** What the two sides say about the phase the library is in. */
  lemma Sides(y: Sys)
    requires Coupled(y)
    ensures Linked(y.hub, y.monitor) && Linked(y.hub, y.events)
    ensures !y.events.Unlinked? ==> y.lib.monitor && y.lib.device.present != 0 && y.phase != OpeningMonitor
  {}

  lemma ToldStep(y: Sys, s: Step, g: Hub)
    requires Inv(y) && Next(y.hub, s, g) && Sound(y.monitor) && Sound(y.events) && Commanded(y, s)
    ensures Told(g, Relinked(g, y.monitor), Relinked(g, y.events))
  {
    Sides(y);
    if !y.events.Unlinked? && Outdated(g, End(g, Relinked(g, y.events))) {
      OutdatedBefore(y.hub, s, g, y.events);
      DueStep(y.hub, s, g, y.lib, y.phase, y.monitor);
    }
  }

  lemma KindsStep(h: Hub, g: Hub, monitor: Link, events: Link)
    requires Kinds(h, monitor, events)
    requires monitor.Attached? ==> MonitorSlot(g.slots[monitor.i])
    requires events.Attached? ==> EventSlot(g.slots[events.i])
    ensures Kinds(g, Relinked(g, monitor), Relinked(g, events))
  {
    if !monitor.Unlinked? {
      MonitorKindStep(h, g, monitor);
    }
    if !events.Unlinked? {
      EventKindStep(h, g, events);
    }
  }

  lemma BridgeKeeps(y: Sys, s: Step, z: Sys)
    requires Inv(y) && BridgeMoved(y, s, z)
    ensures Inv(z)
  {
    Sides(y);
    StepKept(y.hub, s, z.hub);
    if y.monitor.Attached? {
      MonitorEndStep(y.hub, s, z.hub, y.monitor);
    }
    if y.events.Attached? {
      EventEndStep(y.hub, s, z.hub, y.events);
    }
    KindsStep(y.hub, z.hub, y.monitor, y.events);
    MonitorSideStep(y.hub, z.hub, y.lib, y.phase, y.monitor);
    EventSideStep(y.hub, z.hub, y.lib, y.phase, y.events);
    ToldStep(y, s, z.hub);
  }

  // ---------------------------------------------------------- opening a stream

  lemma AcceptElsewhere(h: Hub, g: Hub, i: nat, k: Link)
    requires AcceptedAt(h, g, i) && i < 16 && Linked(h, k)
    ensures Relinked(g, k) == k && (k.Attached? ==> k.i != i)
  {}

  lemma AcceptKeeps(y: Sys, g: Hub, i: nat)
    requires Inv(y) && AcceptedAt(y.hub, g, i) && i < 16
    ensures Inv(y.(hub := g)) && g.slots[i] == FRESH_SLOT
    ensures (y.monitor.Attached? ==> y.monitor.i != i) && (y.events.Attached? ==> y.events.i != i)
  {
    Sides(y);
    AcceptElsewhere(y.hub, g, i, y.monitor);
    AcceptElsewhere(y.hub, g, i, y.events);
    BridgeKeeps(y, Accept, y.(hub := g));
  }

  lemma MonitorConnectedKeeps(y: Sys, i: nat, z: Sys)
    requires Inv(y) && MonitorConnected(y, i, z)
    ensures Inv(z)
  {
    AcceptKeeps(y, z.hub, i);
  }

  lemma EventsConnectedKeeps(y: Sys, i: nat, z: Sys)
    requires Inv(y) && EventsConnected(y, i, z)
    ensures Inv(z)
  {
    AcceptKeeps(y, z.hub, i);
    Sides(y);
  }

  /** A step that concerns the event stream alone. */
  lemma EventsOnly(y: Sys, z: Sys)
    requires Coupled(y) && y.phase != OpeningMonitor && z.phase == Idle
    requires z.hub == y.hub && z.monitor == y.monitor
    requires z.lib == y.lib.(events := z.lib.events, replica := z.lib.replica, eventLeft := z.lib.eventLeft)
    requires Life(z.lib) && EventSide(z.hub, z.lib, Idle, z.events)
    requires z.events.Unlinked? || (!y.events.Unlinked? && z.events == y.events.(taken := z.events.taken))
    ensures Coupled(z)
  {}

  /** A step that concerns the monitor and, at most, ends the event stream. */
  lemma MonitorOnly(y: Sys, z: Sys)
    requires Coupled(y) && y.phase != OpeningEvents && z.phase == Idle && z.hub == y.hub && z.events == Unlinked
    requires Life(z.lib) && !z.lib.events && MonitorSide(z.hub, z.lib, Idle, z.monitor)
    ensures Coupled(z)
  {}

  lemma GivenUpKeeps(y: Sys, z: Sys)
    requires Coupled(y) && GivenUp(y, z)
    ensures Coupled(z)
  {
    Sides(y);
    if y.phase == OpeningEvents {
      EventsOnly(y, z);
    } else {
      MonitorOnly(y, z);
    }
  }

  /** One whole announcement of a monitor stream. */
  lemma Announced(log: seq<Msg>, k: nat, b: seq<byte>)
    requires MonitorLog(log) && k < |log| && |LogBytes(log)| >= HOTPLUG_SIZE * (k + 1)
    requires b == LogBytes(log)[HOTPLUG_SIZE * k..HOTPLUG_SIZE * (k + 1)]
    ensures DecodeHotplug(b) == log[k].body.hotplug && GoodHotplug(log[k].body.hotplug)
    ensures Action(log[k]) == HOTPLUG_REMOVE as int <==> log[k].body.hotplug.descriptor.present == 0
  {
    MonitorMessage(log, k, HOTPLUG_SIZE * k);
    assert GoodAnnouncement(log[k]);
    HotplugRoundTrip(log[k].body.hotplug);
  }

  lemma MonitorOpens(l: Lib, t: Slot, m: Hotplug)
    requires Life(l) && !l.monitor && HOTPLUG_SIZE <= t.sent <= |LogBytes(t.log)| && |t.log| > 0
    requires t.log[0].body.Announce? && m == t.log[0].body.hotplug && GoodHotplug(m)
    ensures var k := Do(l, MonitorOpened(m));
      MonitorRead(k, t, HOTPLUG_SIZE) && k.monitor && !k.events && Life(k)
  {}

  lemma MonitorFinishedKeeps(y: Sys, z: Sys)
    requires Coupled(y) && MonitorFinished(y, z) && MonitorSlot(End(y.hub, y.monitor))
    ensures Coupled(z)
  {
    var t := End(y.hub, y.monitor);
    Sides(y);
    MonitorBytes(t.log);
    Announced(t.log, 0, ReadFrom(y.hub, y.monitor, HOTPLUG_SIZE));
    assert GoodAnnouncement(t.log[0]);
    MonitorOpens(y.lib, t, t.log[0].body.hotplug);
    MonitorOnly(y, z);
  }

  /** The first bytes of an event stream are a descriptor. */
  lemma Described(log: seq<Msg>)
    requires EventLog(log) && DESCRIPTOR_SIZE <= |LogBytes(log)|
    ensures |log| > 0 && log[0].body.Descriptor?
    ensures DecodeDescriptor(LogBytes(log)[0..DESCRIPTOR_SIZE]) == log[0].body.descriptor
  {
    EventBytes(log);
    DescriptorRoundTrip(log[0].body.descriptor);
    Within(EncodeDescriptor(log[0].body.descriptor), EncodeRecords(Flat(log)), 0, DESCRIPTOR_SIZE);
  }

  lemma NothingRead(s: seq<byte>)
    requires DESCRIPTOR_SIZE <= |s|
    ensures s[DESCRIPTOR_SIZE..DESCRIPTOR_SIZE] == [] && EventsIn([]) == [] && Replay(RESET, []) == RESET
  {}

  lemma EventsOpen(l: Lib, t: Slot, d: DeviceDescriptor)
    requires Life(l) && !l.events && l.device.present != 0 && DESCRIPTOR_SIZE <= t.sent <= |LogBytes(t.log)| && |t.log| > 0
    requires t.log[0].body.Descriptor? && d == t.log[0].body.descriptor && Streamable(d)
    ensures var k := Do(l, EventsOpened(d));
      EventRead(k, t, DESCRIPTOR_SIZE) && k.events && Life(k)
  {
    NothingRead(LogBytes(t.log));
  }

  /** In which case the library goes on with the descriptor that was queued. */
  lemma FinishedWith(y: Sys, z: Sys)
    requires EventsFinished(y, z) && y.events.taken == 0 && EventLog(End(y.hub, y.events).log)
    ensures var log := End(y.hub, y.events).log;
      && |log| > 0 && log[0].body.Descriptor?
      && z == if Streamable(log[0].body.descriptor)
              then y.(lib := Do(y.lib, EventsOpened(log[0].body.descriptor)), phase := Idle, events := Past(y.events, DESCRIPTOR_SIZE))
              else y.(phase := Idle, events := Unlinked)
  {
    Described(End(y.hub, y.events).log);
  }

  lemma EventsAnswered(y: Sys, z: Sys, d: DeviceDescriptor)
    requires Coupled(y) && y.phase == OpeningEvents && Readable(y.hub, y.events, DESCRIPTOR_SIZE)
    requires var log := End(y.hub, y.events).log; |log| > 0 && log[0].body.Descriptor? && d == log[0].body.descriptor
    requires Streamable(d) && Can(y.lib, EventsOpened(d))
    requires z == y.(lib := Do(y.lib, EventsOpened(d)), phase := Idle, events := Past(y.events, DESCRIPTOR_SIZE))
    ensures Coupled(z)
  {
    Sides(y);
    EventsOpen(y.lib, End(y.hub, y.events), d);
    EventsOnly(y, z);
  }

  lemma EventsFinishedKeeps(y: Sys, z: Sys)
    requires Coupled(y) && EventsFinished(y, z) && EventSlot(End(y.hub, y.events))
    ensures Coupled(z)
  {
    FinishedWith(y, z);
    var d := End(y.hub, y.events).log[0].body.descriptor;
    if Streamable(d) {
      EventsAnswered(y, z, d);
    } else {
      EventsOnly(y, z);
    }
  }

  // ------------------------------------------------------------------- reading

  lemma SliceJoin(s: seq<byte>, i: nat, j: nat, k: nat)
    requires i <= j <= k <= |s|
    ensures s[i..k] == s[i..j] + s[j..k]
  {}

  /** What has been folded, folded further. */
  lemma FoldFurther(l: Lib, b: seq<byte>, data: seq<byte>)
    requires FoldedTo(l, b) && |data| <= EVENT_SIZE - |l.eventLeft|
    ensures FoldedTo(TakeEvents(l, data), b + data)
  {
    TakeIsFeed(l, data);
    CutsCompose(b, data, EVENT_SIZE);
    EventsInAppend(b, data);
    ReplayAppend(RESET, EventsIn(b), EventsIn(Rest(b, EVENT_SIZE) + data));
  }

  /** n more bytes of the event stream. */
  lemma EventBytesMore(l: Lib, s: seq<byte>, taken: nat, n: nat)
    requires DESCRIPTOR_SIZE <= taken && taken + n <= |s|
    requires FoldedTo(l, s[DESCRIPTOR_SIZE..taken] + s[taken..taken + n])
    ensures EventBytesRead(l, s, taken + n)
  {
    SliceJoin(s, DESCRIPTOR_SIZE, taken, taken + n);
  }

  lemma EventReadMore(l: Lib, t: Slot, taken: nat, n: nat, data: seq<byte>)
    requires EventRead(l, t, taken) && 0 < n <= EVENT_SIZE - |l.eventLeft| && taken + n <= t.sent <= |LogBytes(t.log)|
    requires Life(l) && l.events && data == LogBytes(t.log)[taken..taken + n]
    ensures Can(l, EventData(data)) && EventRead(Do(l, EventData(data)), t, taken + n) && Life(Do(l, EventData(data)))
    ensures Do(l, EventData(data)).events
  {
    FoldFurther(l, LogBytes(t.log)[DESCRIPTOR_SIZE..taken], data);
    EventBytesMore(TakeEvents(l, data), LogBytes(t.log), taken, n);
    LifeKept(l, EventData(data));
  }

  lemma EventSideRead(h: Hub, l: Lib, k: Link)
    requires EventSide(h, l, Idle, k) && !k.Unlinked?
    ensures Linked(h, k) && l.events && EventRead(l, End(h, k), k.taken)
  {}

  lemma EventSideNext(h: Hub, l: Lib, k: Link, n: nat)
    requires Linked(h, k) && !k.Unlinked? && l.events && EventRead(l, End(h, k), k.taken + n)
    ensures EventSide(h, l, Idle, Past(k, n))
  {}

  lemma EventSideMore(h: Hub, l: Lib, k: Link, n: nat)
    requires EventSide(h, l, Idle, k) && Life(l) && Readable(h, k, n) && Can(l, EventData(ReadFrom(h, k, n)))
    ensures var l' := Do(l, EventData(ReadFrom(h, k, n)));
      EventSide(h, l', Idle, Past(k, n)) && Life(l')
  {
    var data := ReadFrom(h, k, n);
    EventSideRead(h, l, k);
    EventReadMore(l, End(h, k), k.taken, n, data);
    EventSideNext(h, Do(l, EventData(data)), k, n);
  }

  lemma EventsReadKeeps(y: Sys, n: nat, z: Sys)
    requires Coupled(y) && EventsReadBy(y, n, z)
    ensures Coupled(z)
  {
    EventSideMore(y.hub, y.lib, y.events, n);
    EventsOnly(y, z);
  }

  lemma EventsLostKeeps(y: Sys, z: Sys)
    requires Coupled(y) && EventsLostBy(y, z)
    ensures Coupled(z)
  {
    Sides(y);
    LifeKept(y.lib, EventLost);
    EventsOnly(y, z);
  }

  lemma MonitorLostKeeps(y: Sys, z: Sys)
    requires Coupled(y) && MonitorLostBy(y, z)
    ensures Coupled(z)
  {
    LifeKept(y.lib, MonitorLost);
    MonitorOnly(y, z);
  }

  /** n more bytes of the monitor stream: not yet a whole announcement, or exactly the end of one. */
  lemma MonitorBytesMore(l: Lib, s: seq<byte>, taken: nat, n: nat)
    requires MonitorBytesRead(l, s, taken) && 0 < n <= HOTPLUG_SIZE - |l.monitorLeft| && taken + n <= |s|
    ensures var c, b := taken / HOTPLUG_SIZE, l.monitorLeft + s[taken..taken + n];
      if |b| < HOTPLUG_SIZE then
        (taken + n) / HOTPLUG_SIZE == c && b == s[HOTPLUG_SIZE * c..taken + n]
      else
        taken + n == HOTPLUG_SIZE * (c + 1) && b == s[HOTPLUG_SIZE * c..HOTPLUG_SIZE * (c + 1)]
  {
    SliceJoin(s, HOTPLUG_SIZE * (taken / HOTPLUG_SIZE), taken, taken + n);
  }

  lemma MonitorSideSome(h: Hub, l: Lib, k: Link, n: nat)
    requires MonitorSide(h, l, Idle, k) && Life(l) && Readable(h, k, n) && Can(l, MonitorData(ReadFrom(h, k, n)))
    requires |l.monitorLeft| + n < HOTPLUG_SIZE
    ensures var l' := Do(l, MonitorData(ReadFrom(h, k, n)));
      && l' == l.(monitorLeft := l'.monitorLeft)
      && MonitorSide(h, l', Idle, Past(k, n)) && Life(l')
      && Past(k, n).taken / HOTPLUG_SIZE == k.taken / HOTPLUG_SIZE
  {
    assert MonitorRead(l, End(h, k), k.taken);
    MonitorBytesMore(l, LogBytes(End(h, k).log), k.taken, n);
  }

  lemma TakeWhole(l: Lib, data: seq<byte>, m: Hotplug)
    requires |l.monitorLeft| + |data| == HOTPLUG_SIZE && DecodeHotplug(l.monitorLeft + data) == m
    ensures TakeMonitor(l, data) == Hotplugged(l.(monitorLeft := []), m)
  {}

  /** The announcement that comes to its end is the next one of the log. */
  lemma WholeAnnouncement(l: Lib, log: seq<Msg>, taken: nat, data: seq<byte>)
    requires MonitorLog(log) && MonitorBytesRead(l, LogBytes(log), taken)
    requires 0 < |data| == HOTPLUG_SIZE - |l.monitorLeft| && taken + |data| <= |LogBytes(log)|
    requires data == LogBytes(log)[taken..taken + |data|]
    ensures var c := taken / HOTPLUG_SIZE;
      && taken + |data| == HOTPLUG_SIZE * (c + 1) && c < |log| && log[c].body.Announce?
      && TakeMonitor(l, data) == Hotplugged(l.(monitorLeft := []), log[c].body.hotplug)
      && GoodHotplug(log[c].body.hotplug)
      && (Action(log[c]) == HOTPLUG_REMOVE as int <==> log[c].body.hotplug.descriptor.present == 0)
  {
    var c := taken / HOTPLUG_SIZE;
    MonitorBytesMore(l, LogBytes(log), taken, |data|);
    MonitorBytes(log);
    assert GoodAnnouncement(log[c]);
    Announced(log, c, l.monitorLeft + data);
    TakeWhole(l, data, log[c].body.hotplug);
  }

  lemma AppliedNext(l: Lib, log: seq<Msg>, c: nat, taken: nat)
    requires c < |log| && log[c].body.Announce? && GoodHotplug(log[c].body.hotplug)
    requires taken == HOTPLUG_SIZE * (c + 1) <= |LogBytes(log)|
    ensures var l' := Hotplugged(l.(monitorLeft := []), log[c].body.hotplug);
      && MonitorBytesRead(l', LogBytes(log), taken) && taken / HOTPLUG_SIZE == c + 1 && Applied(l', log, c + 1)
      && l'.monitor == l.monitor
  {}

  lemma MonitorSideWhole(h: Hub, l: Lib, k: Link, n: nat, m: Hotplug)
    requires MonitorSide(h, l, Idle, k) && !k.Unlinked? && Linked(h, k)
    requires var log, c := End(h, k).log, k.taken / HOTPLUG_SIZE;
      && k.taken + n == HOTPLUG_SIZE * (c + 1) && c < |log| && log[c].body.Announce? && m == log[c].body.hotplug
      && GoodHotplug(m) && k.taken + n <= End(h, k).sent <= |LogBytes(log)|
    ensures MonitorSide(h, Hotplugged(l.(monitorLeft := []), m), Idle, Past(k, n))
    ensures Past(k, n).taken / HOTPLUG_SIZE == k.taken / HOTPLUG_SIZE + 1
  {
    AppliedNext(l, End(h, k).log, k.taken / HOTPLUG_SIZE, k.taken + n);
  }

  lemma RemoveLater(log: seq<Msg>, n: nat)
    requires RemoveAfter(log, n) && n < |log| && Action(log[n]) != HOTPLUG_REMOVE as int
    ensures RemoveAfter(log, n + 1)
  {
    var k :| n <= k < |log| && Action(log[k]) == HOTPLUG_REMOVE as int;
    assert k != n;
  }

  /** News of the end of a device ends its stream; other news that changes nothing leaves the rest due. */
  lemma ToldRead(h: Hub, l: Lib, m: Hotplug, k: Link, n: nat, events: Link)
    requires Told(h, k, events) && Sound(k) && !k.Unlinked? && Life(l) && l.events && GoodHotplug(m)
    requires var log, c := End(h, k).log, k.taken / HOTPLUG_SIZE;
      && c < |log| && Past(k, n).taken / HOTPLUG_SIZE == c + 1
      && (Action(log[c]) == HOTPLUG_REMOVE as int <==> m.descriptor.present == 0)
    requires Hotplugged(l.(monitorLeft := []), m).events
    ensures Told(h, Past(k, n), events)
  {
    if !events.Unlinked? && Outdated(h, End(h, events)) && k.Attached? {
      RemoveLater(h.slots[k.i].log, k.taken / HOTPLUG_SIZE);
    }
  }

  lemma NextAnnouncement(h: Hub, l: Lib, k: Link, n: nat) returns (m: Hotplug)
    requires MonitorSide(h, l, Idle, k) && Readable(h, k, n) && Linked(h, k) && MonitorSlot(End(h, k))
    requires Can(l, MonitorData(ReadFrom(h, k, n))) && |l.monitorLeft| + n == HOTPLUG_SIZE
    ensures GoodHotplug(m) && Do(l, MonitorData(ReadFrom(h, k, n))) == Hotplugged(l.(monitorLeft := []), m)
    ensures var log, c := End(h, k).log, k.taken / HOTPLUG_SIZE;
      && k.taken + n == HOTPLUG_SIZE * (c + 1) && c < |log| && log[c].body.Announce? && m == log[c].body.hotplug
      && (Action(log[c]) == HOTPLUG_REMOVE as int <==> m.descriptor.present == 0)
  {
    var t, c := End(h, k), k.taken / HOTPLUG_SIZE;
    assert MonitorRead(l, t, k.taken);
    WholeAnnouncement(l, t.log, k.taken, ReadFrom(h, k, n));
    m := t.log[c].body.hotplug;
  }

  lemma MonitorWholeKeeps(y: Sys, n: nat, z: Sys, m: Hotplug)
    requires Coupled(y) && y.phase == Idle && Readable(y.hub, y.monitor, n) && Linked(y.hub, y.monitor) && GoodHotplug(m)
    requires z == y.(lib := Hotplugged(y.lib.(monitorLeft := []), m), monitor := Past(y.monitor, n),
                     events := EventsKept(Hotplugged(y.lib.(monitorLeft := []), m), y.events))
    requires Life(z.lib) && MonitorSide(z.hub, z.lib, Idle, z.monitor)
    requires var log, c := End(y.hub, y.monitor).log, y.monitor.taken / HOTPLUG_SIZE;
      && c < |log| && Past(y.monitor, n).taken / HOTPLUG_SIZE == c + 1
      && (Action(log[c]) == HOTPLUG_REMOVE as int <==> m.descriptor.present == 0)
    ensures Coupled(z)
  {
    if z.lib.events {
      ToldRead(y.hub, y.lib, m, y.monitor, n, y.events);
      MonitorAdvanced(y, z);
    } else {
      MonitorOnly(y, z);
    }
  }

  /** The monitor moves on while the event stream, if any, stays. */
  lemma MonitorAdvanced(y: Sys, z: Sys)
    requires Coupled(y) && y.phase == Idle && z.phase == Idle && z.hub == y.hub
    requires !y.monitor.Unlinked? && !z.monitor.Unlinked? && z.monitor == y.monitor.(taken := z.monitor.taken)
    requires z.events == y.events && z.lib == y.lib.(monitorLeft := z.lib.monitorLeft)
    requires Life(z.lib) && MonitorSide(z.hub, z.lib, Idle, z.monitor) && Told(z.hub, z.monitor, z.events)
    ensures Coupled(z)
  {}

  lemma MonitorSomeKeeps(y: Sys, n: nat, z: Sys)
    requires Coupled(y) && MonitorReadBy(y, n, z) && |y.lib.monitorLeft| + n < HOTPLUG_SIZE
    ensures Coupled(z)
  {
    MonitorSideSome(y.hub, y.lib, y.monitor, n);
    MonitorAdvanced(y, z);
  }

  lemma MonitorReadKeeps(y: Sys, n: nat, z: Sys)
    requires Coupled(y) && MonitorReadBy(y, n, z) && MonitorSlot(End(y.hub, y.monitor))
    ensures Coupled(z)
  {
    if |y.lib.monitorLeft| + n < HOTPLUG_SIZE {
      MonitorSomeKeeps(y, n, z);
    } else {
      Sides(y);
      LifeKept(y.lib, MonitorData(ReadFrom(y.hub, y.monitor, n)));
      var m := NextAnnouncement(y.hub, y.lib, y.monitor, n);
      MonitorSideWhole(y.hub, y.lib, y.monitor, n, m);
      MonitorWholeKeeps(y, n, z, m);
    }
  }

  // --------------------------------------------------------------------- theorem

  /** The end of a stream, as seen from the library, is where it was. */
  lemma KindsStay(y: Sys, z: Sys)
    requires Kinds(y.hub, y.monitor, y.events) && z.hub == y.hub
    requires z.monitor.Unlinked? || (!y.monitor.Unlinked? && z.monitor == y.monitor.(taken := z.monitor.taken))
    requires z.events.Unlinked? || (!y.events.Unlinked? && z.events == y.events.(taken := z.events.taken))
    ensures Kinds(z.hub, z.monitor, z.events)
  {}

  ghost predicate OfLibrary(m: Move) { !m.Bridge? && !m.ConnectMonitor? && !m.ConnectEvents? }

  lemma LibraryEnds(y: Sys, m: Move, z: Sys)
    requires OfLibrary(m) && Moved(y, m, z)
    ensures z.hub == y.hub
    ensures z.monitor.Unlinked? || (!y.monitor.Unlinked? && z.monitor == y.monitor.(taken := z.monitor.taken))
    ensures z.events.Unlinked? || (!y.events.Unlinked? && z.events == y.events.(taken := z.events.taken))
  {}

  lemma LibraryKeeps(y: Sys, m: Move, z: Sys)
    requires Kinds(y.hub, y.monitor, y.events) && Coupled(y) && OfLibrary(m) && Moved(y, m, z)
    ensures Coupled(z)
  {
    match m
    case FinishMonitor => MonitorFinishedKeeps(y, z);
    case FinishEvents => EventsFinishedKeeps(y, z);
    case GiveUp => GivenUpKeeps(y, z);
    case ReadMonitor(n) => MonitorReadKeeps(y, n, z);
    case ReadEvents(n) => EventsReadKeeps(y, n, z);
    case LoseMonitor => MonitorLostKeeps(y, z);
    case LoseEvents => EventsLostKeeps(y, z);
  }

  lemma LibraryInv(y: Sys, m: Move, z: Sys)
    requires Inv(y) && OfLibrary(m) && Moved(y, m, z)
    ensures Inv(z)
  {
    LibraryKeeps(y, m, z);
    LibraryEnds(y, m, z);
    KindsStay(y, z);
  }

  lemma StepKeeps(y: Sys, m: Move, z: Sys)
    requires Inv(y) && Moved(y, m, z)
    ensures Inv(z)
  {
    if OfLibrary(m) {
      LibraryInv(y, m, z);
    } else {
      match m
      case Bridge(s) => BridgeKeeps(y, s, z);
      case ConnectMonitor(i) => MonitorConnectedKeeps(y, i, z);
      case ConnectEvents(i) => EventsConnectedKeeps(y, i, z);
    }
  }

  ghost predicate Run(run: seq<Sys>) {
    && |run| > 0
    && Initial(run[0].hub) && run[0] == Sys(run[0].hub, CREATED, Idle, Unlinked, Unlinked)
    && forall k :: 0 <= k < |run| - 1 ==> SomeMove(run[k], run[k + 1])
  }

  ghost predicate SomeMove(y: Sys, z: Sys) { exists m :: Moved(y, m, z) }

  lemma {:induction false} RunKeeps(run: seq<Sys>)
    requires Run(run)
    ensures Inv(run[|run| - 1])
  {
    var n := |run| - 1;
    if n == 0 {
      InitialInv(run[0].hub);
      CreatedInv(run[0].hub);
    } else {
      RunKeeps(run[..n]);
      assert SomeMove(run[n - 1], run[n]);
      var m :| Moved(run[n - 1], m, run[n]);
      StepKeeps(run[n - 1], m, run[n]);
    }
  }

  /** Everything the bridge has queued on a connection has been taken, and the connection stands. */
  ghost predicate Drained(h: Hub, k: Link) {
    k.Attached? && k.i < 16 && k.taken == |LogBytes(h.slots[k.i].log)|
  }

  lemma DecodeWhole(rs: seq<Record>)
    ensures EventsIn(EncodeRecords(rs)) == Bodies(rs) && Rest(EncodeRecords(rs), EVENT_SIZE) == []
  {
    CutsOfJoin(Frames(rs), EVENT_SIZE);
    DecodeFrames(rs, Frames(rs));
    assert DecodeRecords(Frames(rs)) == rs;
  }

  lemma FoldedWhole(l: Lib, rs: seq<Record>)
    requires FoldedTo(l, EncodeRecords(rs))
    ensures l.eventLeft == [] && l.replica == Replay(RESET, Bodies(rs))
  {
    DecodeWhole(rs);
  }

  lemma RecordsOfLog(log: seq<Msg>)
    requires EventLog(log) && |log| > 0
    ensures DESCRIPTOR_SIZE <= |LogBytes(log)|
    ensures LogBytes(log)[DESCRIPTOR_SIZE..|LogBytes(log)|] == EncodeRecords(Flat(log))
  {
    EventBytes(log);
    Within(EncodeDescriptor(log[0].body.descriptor), EncodeRecords(Flat(log)), 0, 0);
  }

  /** A drained event stream has been folded whole. */
  lemma {:induction false} DrainedFold(l: Lib, log: seq<Msg>)
    requires EventLog(log) && |log| > 0 && EventBytesRead(l, LogBytes(log), |LogBytes(log)|)
    ensures l.eventLeft == [] && l.replica == Replay(RESET, Bodies(Flat(log)))
  {
    RecordsOfLog(log);
    FoldedWhole(l, Flat(log));
  }

  /** A drained monitor has been applied to the last announcement. */
  lemma DrainedDevice(l: Lib, log: seq<Msg>)
    requires MonitorLog(log) && MonitorBytesRead(l, LogBytes(log), |LogBytes(log)|)
    requires Applied(l, log, |LogBytes(log)| / HOTPLUG_SIZE)
    ensures |log| > 0 && log[|log| - 1].body.Announce? && l.device == Project(log[|log| - 1].body.hotplug.descriptor)
    ensures !RemoveAfter(log, |LogBytes(log)| / HOTPLUG_SIZE)
  {
    MonitorBytes(log);
  }

  /** A drained monitor connection: the device shown is the bridge's, and nothing is due any more. */
  lemma MonitorDrained(h: Hub, l: Lib, k: Link)
    requires HubInv(h) && MonitorSide(h, l, Idle, k) && Drained(h, k) && MonitorSlot(End(h, k)) && Linked(h, k)
    ensures l.device == Project(h.descriptor) && !Due(h, k)
  {
    var t := h.slots[k.i];
    assert MonitorRead(l, t, k.taken);
    DrainedDevice(l, t.log);
    assert MonitorLaw(h, t);
  }

  lemma LiveLaw(h: Hub, t: Slot)
    requires SlotInv(h, t) && EventSlot(t) && Live(t.log) && t.open && !Outdated(h, t)
    ensures h.deviceId >= 0 && Fold(Wire(ZERO_PAD), Bodies(Flat(t.log))) == Wire(h.pad)
  {
    assert EventLaw(h, t);
  }

  lemma FoldedView(l: Lib, log: seq<Msg>, pad: Pad)
    requires EventLog(log) && |log| > 0 && EventBytesRead(l, LogBytes(log), |LogBytes(log)|)
    requires Fold(Wire(ZERO_PAD), Bodies(Flat(log))) == Wire(pad)
    ensures l.replica.shape == View(pad) && l.eventLeft == []
    ensures l.replica.packet == Reports(Bodies(Flat(log))) % 0x1_0000_0000
  {
    DrainedFold(l, log);
    ReplayFromReset(Bodies(Flat(log)));
    ReplayCounts(RESET, Bodies(Flat(log)));
  }

  /** A drained event connection of the present epoch: the replica is the view of the bridge's state. */
  lemma EventsDrained(h: Hub, l: Lib, k: Link)
    requires EventSide(h, l, Idle, k) && Drained(h, k) && SlotInv(h, h.slots[k.i]) && EventSlot(h.slots[k.i])
    requires !Outdated(h, h.slots[k.i])
    ensures h.deviceId >= 0 && l.replica.shape == View(h.pad) && l.eventLeft == []
    ensures l.replica.packet == Reports(Bodies(Flat(h.slots[k.i].log))) % 0x1_0000_0000
  {
    var t := h.slots[k.i];
    assert EventRead(l, t, k.taken);
    LiveLaw(h, t);
    FoldedView(l, t.log, h.pad);
  }

  /**
   * Agreement. In every run of XI2 events, device swaps, partial sends and receives, lost and
   * reopened connections: when the library has read everything that was queued for it, it shows
   * the bridge's state and the bridge's device.
   */
  lemma ReplicaAgrees(run: seq<Sys>)
    requires Run(run)
    requires var y := run[|run| - 1];
      y.phase == Idle && y.lib.events && Drained(y.hub, y.monitor) && Drained(y.hub, y.events)
    ensures var y := run[|run| - 1];
      && y.hub.deviceId >= 0
      && y.lib.replica.shape == View(y.hub.pad)
      && y.lib.device == Project(y.hub.descriptor)
  {
    var y := run[|run| - 1];
    RunKeeps(run);
    Sides(y);
    MonitorDrained(y.hub, y.lib, y.monitor);
    EventsDrained(y.hub, y.lib, y.events);
  }

  /** Without a device both sides rest: the library's reset state is the view of the bridge's zeroed one. */
  lemma AbsenceAgrees(run: seq<Sys>)
    requires Run(run)
    requires var y := run[|run| - 1]; y.phase == Idle && Drained(y.hub, y.monitor)
    ensures var y := run[|run| - 1];
      && y.lib.device == Project(y.hub.descriptor)
      && (y.lib.device.present == 0 <==> y.hub.deviceId < 0)
      && (y.hub.deviceId < 0 ==> !y.lib.events && y.lib.replica.shape == View(y.hub.pad) == RESET_SHAPE)
  {
    var y := run[|run| - 1];
    RunKeeps(run);
    Sides(y);
    MonitorDrained(y.hub, y.lib, y.monitor);
    Absent(y.hub, y.lib);
    if y.hub.deviceId < 0 {
      AtRest(y.lib.replica, y.hub.pad);
    }
  }

  lemma Absent(h: Hub, l: Lib)
    requires DeviceInv(h) && Life(l) && l.device == Project(h.descriptor)
    ensures l.device.present == 0 <==> h.deviceId < 0
    ensures h.deviceId < 0 ==> !l.events && l.replica == RESET && h.pad == ZERO_PAD
  {}

  lemma AtRest(r: Replica, p: Pad)
    requires r == RESET && p == ZERO_PAD
    ensures r.shape == View(p) == RESET_SHAPE
  {
    ResetIsViewOfZero();
  }

  lemma TailPrefix(d: seq<byte>, e: seq<byte>, n: nat)
    requires |d| <= n <= |d| + |e|
    ensures (d + e)[|d|..n] == e[..n - |d|]
  {}

  lemma PrefixDecodes(log: seq<Msg>, taken: nat)
    requires EventLog(log) && |log| > 0 && DESCRIPTOR_SIZE <= taken <= |LogBytes(log)|
    ensures EventsIn(LogBytes(log)[DESCRIPTOR_SIZE..taken]) <= Bodies(Flat(log))
  {
    EventBytes(log);
    var d, rs := EncodeDescriptor(log[0].body.descriptor), Flat(log);
    TailPrefix(d, EncodeRecords(rs), taken);
    RecordsOfPrefix(rs, taken - DESCRIPTOR_SIZE);
    PrefixBodies(DecodeRecords(Records(EncodeRecords(rs)[..taken - DESCRIPTOR_SIZE], EVENT_SIZE)), rs);
  }

  lemma PrefixBodies(a: seq<Record>, b: seq<Record>)
    requires a <= b
    ensures Bodies(a) <= Bodies(b)
  {
    assert Bodies(b)[..|a|] == Bodies(a);
  }

  /** At every other moment the replica is what some beginning of the packets sent so far says. */
  lemma ReplicaIsPast(run: seq<Sys>) returns (es: seq<Event>)
    requires Run(run)
    requires var y := run[|run| - 1]; y.phase == Idle && y.lib.events
    ensures var y := run[|run| - 1];
      && Sound(y.events) && !y.events.Unlinked?
      && es <= Bodies(Flat(End(y.hub, y.events).log))
      && y.lib.replica == Replay(RESET, es)
  {
    var y := run[|run| - 1];
    RunKeeps(run);
    Sides(y);
    var t := End(y.hub, y.events);
    assert EventRead(y.lib, t, y.events.taken);
    PrefixDecodes(t.log, y.events.taken);
    es := EventsIn(LogBytes(t.log)[DESCRIPTOR_SIZE..y.events.taken]);
  }

  /** A stream the library still reads after its device has gone is never silently kept. */
  lemma StaleIsTold(run: seq<Sys>)
    requires Run(run)
    requires var y := run[|run| - 1];
      Sound(y.events) && !y.events.Unlinked? && Outdated(y.hub, End(y.hub, y.events))
    ensures var y := run[|run| - 1]; Sound(y.monitor) && Due(y.hub, y.monitor)
  {
    RunKeeps(run);
  }

  /** What the application is shown about a device is what the X server said about it. */
  lemma DeviceShown(h: Hub, a: Probe)
    requires a.Found? && GoodProbe(a)
    ensures var d := Project(Added(h, a).descriptor);
      && d.present == 1 && d.name == a.name && d.deviceId == a.deviceId
      && d.vendorId == a.vendorId && d.productId == a.productId && d.inputMode == a.inputMode
      && (d.capabilities == CAP_RUMBLE + CAP_TRIGGER_RUMBLE <==> Capable(Added(h, a)))
  {
    TextSurvives(a.name, Zeros(64 - |a.name|), 63);
  }

  // -------------------------------------------------------------------- progress

  function Last(run: seq<Sys>): Sys
    requires |run| > 0
  {
    run[|run| - 1]
  }

  lemma RunOn(run: seq<Sys>, m: Move, z: Sys)
    requires Run(run) && Moved(Last(run), m, z)
    ensures Run(run + [z]) && Last(run + [z]) == z
  {
    var more := run + [z];
    assert SomeMove(Last(run), z);
    forall k | 0 <= k < |more| - 1 ensures SomeMove(more[k], more[k + 1]) {
      assert more[k] == run[k];
      assert k + 1 < |run| ==> more[k + 1] == run[k + 1];
    }
  }

  /** The bridge's end stands and has sent everything. */
  ghost predicate SentAll(h: Hub, k: Link) {
    k.Attached? && k.i < 16 && h.slots[k.i].sent == |LogBytes(h.slots[k.i].log)|
  }

  lemma ReadOneEventByte(y: Sys) returns (z: Sys)
    requires Coupled(y) && y.phase == Idle && y.lib.events && SentAll(y.hub, y.events) && !Drained(y.hub, y.events)
    ensures EventsReadBy(y, 1, z) && z.hub == y.hub && z.monitor == y.monitor && z.phase == Idle && z.lib.events
    ensures z.lib.monitor == y.lib.monitor && z.events == Past(y.events, 1)
  {
    Sides(y);
    EventSideRead(y.hub, y.lib, y.events);
    var data := ReadFrom(y.hub, y.events, 1);
    z := y.(lib := Do(y.lib, EventData(data)), events := Past(y.events, 1));
  }

  /** What has been sent on the event connection can be read to the end. */
  lemma {:induction false} EventsCanDrain(run: seq<Sys>) returns (more: seq<Sys>)
    requires Run(run)
    requires var y := Last(run); y.phase == Idle && y.lib.events && SentAll(y.hub, y.events) && y.events.taken <= y.hub.slots[y.events.i].sent
    ensures Run(more)
    ensures var y, z := Last(run), Last(more);
      z.hub == y.hub && z.monitor == y.monitor && z.phase == Idle && z.lib.events && Drained(z.hub, z.events)
    decreases Last(run).hub.slots[Last(run).events.i].sent - Last(run).events.taken
  {
    var y := Last(run);
    if Drained(y.hub, y.events) {
      more := run;
    } else {
      RunKeeps(run);
      var z := ReadOneEventByte(y);
      RunOn(run, ReadEvents(1), z);
      more := EventsCanDrain(run + [z]);
    }
  }

  lemma ReadOneMonitorByte(y: Sys) returns (z: Sys)
    requires Coupled(y) && y.phase == Idle && y.lib.monitor && SentAll(y.hub, y.monitor) && !Drained(y.hub, y.monitor)
    ensures MonitorReadBy(y, 1, z) && z.hub == y.hub && z.phase == Idle && z.lib.monitor
    ensures z.monitor == Past(y.monitor, 1) && z.events == EventsKept(z.lib, y.events)
    ensures z.lib.events ==> y.lib.events
  {
    Sides(y);
    assert MonitorRead(y.lib, End(y.hub, y.monitor), y.monitor.taken);
    var data := ReadFrom(y.hub, y.monitor, 1);
    var l := Do(y.lib, MonitorData(data));
    z := y.(lib := l, monitor := Past(y.monitor, 1), events := EventsKept(l, y.events));
  }

  /** So can the monitor connection, which may end the event stream. */
  lemma {:induction false} MonitorCanDrain(run: seq<Sys>) returns (more: seq<Sys>)
    requires Run(run)
    requires var y := Last(run); y.phase == Idle && y.lib.monitor && SentAll(y.hub, y.monitor) && y.monitor.taken <= y.hub.slots[y.monitor.i].sent
    ensures Run(more)
    ensures var y, z := Last(run), Last(more);
      && z.hub == y.hub && z.phase == Idle && z.lib.monitor && Drained(z.hub, z.monitor) && z.monitor.i == y.monitor.i
      && (z.lib.events ==> y.lib.events && z.events == y.events)
    decreases Last(run).hub.slots[Last(run).monitor.i].sent - Last(run).monitor.taken
  {
    var y := Last(run);
    if Drained(y.hub, y.monitor) {
      more := run;
    } else {
      RunKeeps(run);
      var z := ReadOneMonitorByte(y);
      RunOn(run, ReadMonitor(1), z);
      more := MonitorCanDrain(run + [z]);
    }
  }

  /** No more is taken than was sent. */
  lemma TakenIsSent(y: Sys)
    requires Coupled(y) && y.phase == Idle
    ensures y.lib.monitor && y.monitor.Attached? ==> y.monitor.i < 16 && y.monitor.taken <= y.hub.slots[y.monitor.i].sent
    ensures y.lib.events && y.events.Attached? ==> y.events.i < 16 && y.events.taken <= y.hub.slots[y.events.i].sent
  {}

  /**
   * Agreement is always within reach. From every state of every run in which the library is idle,
   * its connections stand and the sockets have taken everything, reading alone leads to a state in
   * which the library shows the bridge's device and, if it still has an event stream, its state.
   */
  lemma AgreementWithinReach(run: seq<Sys>) returns (more: seq<Sys>)
    requires Run(run)
    requires var y := Last(run);
      && y.phase == Idle && y.lib.monitor && SentAll(y.hub, y.monitor)
      && (y.lib.events ==> SentAll(y.hub, y.events))
    ensures Run(more)
    ensures var y, z := Last(run), Last(more);
      && z.hub == y.hub && z.phase == Idle
      && z.lib.device == Project(z.hub.descriptor)
      && (z.lib.events ==> z.lib.replica.shape == View(z.hub.pad))
  {
    RunKeeps(run);
    TakenIsSent(Last(run));
    more := MonitorCanDrain(run);
    if Last(more).lib.events {
      more := EventsCanDrain(more);
      ReplicaAgrees(more);
    } else {
      AbsenceAgrees(more);
    }
  }
}
