/** An event stream that has ended can be opened again, and agreement regained. */
module Recovery {
  import opened Bytes
  import opened Protocol
  import opened Controller
  import opened HubModel
  import opened HubSteps
  import opened HubLaws
  import opened LibraryModel
  import opened Links
  import opened WholeSystem

  /** The bridge's device and state are the same, and the monitor's connection has not moved. */
  ghost predicate SameTruth(y: Sys, z: Sys) {
    && z.hub.pad == y.hub.pad && z.hub.descriptor == y.hub.descriptor && z.hub.deviceId == y.hub.deviceId
    && z.monitor == y.monitor && (Drained(y.hub, y.monitor) ==> Drained(z.hub, z.monitor))
  }

  /** The library shows the device and has no event stream, nor has it asked for one. */
  ghost predicate Waiting(y: Sys) {
    && y.phase == Idle && !y.lib.events && y.lib.device.present != 0 && y.events == Unlinked
    && Drained(y.hub, y.monitor) && y.hub.slots[y.monitor.i].open
  }

  ghost predicate SomeFree(h: Hub) { exists i :: 0 <= i < 16 && !h.slots[i].open }

  /** The bridge notices that the library has closed its end of a connection. */
  lemma FreeSlot(y: Sys, j: nat) returns (z: Sys)
    requires Waiting(y) && j < 16 && y.hub.slots[j].open && j != y.monitor.i
    ensures Moved(y, Bridge(Close(j)), z) && SameTruth(y, z) && Waiting(z) && SomeFree(z.hub)
    ensures z.lib == y.lib
  {
    var g := CloseClient(y.hub, j, y.hub.clock);
    CloseOthers(y.hub, j, y.hub.clock);
    assert Next(y.hub, Close(j), g);
    assert Quiet(y.hub.slots[y.monitor.i], g.slots[y.monitor.i]);
    z := y.(hub := g);
    assert !z.hub.slots[j].open;
  }

  lemma LowestFree(h: Hub, n: nat) returns (i: nat)
    requires n <= 16 && (forall j :: 0 <= j < n ==> h.slots[j].open) && SomeFree(h)
    ensures i < 16 && AcceptedAt(h, WithSlot(h, i, FRESH_SLOT), i)
    decreases 16 - n
  {
    if n < 16 && h.slots[n].open {
      i := LowestFree(h, n + 1);
    } else {
      i := n;
    }
  }

  /** Slot i belongs to the library's event connection, on which nothing has been read. */
  ghost predicate AskingAt(y: Sys, i: nat) {
    && y.phase == OpeningEvents && !y.lib.events && y.lib.device.present != 0 && y.events == Attached(i, 0)
    && i < 16 && y.hub.slots[i].open && Drained(y.hub, y.monitor) && y.monitor.i != i && y.hub.slots[y.monitor.i].open
  }

  lemma Connect(y: Sys) returns (i: nat, z: Sys)
    requires Waiting(y) && SomeFree(y.hub)
    ensures i < 16 && Moved(y, ConnectEvents(i), z) && SameTruth(y, z) && z.lib == y.lib
    ensures AskingAt(z, i) && z.hub.slots[i] == FRESH_SLOT
  {
    i := LowestFree(y.hub, 0);
    z := y.(hub := WithSlot(y.hub, i, FRESH_SLOT), phase := OpeningEvents, events := Attached(i, 0));
  }

  /** What the bridge does to slot i alone leaves the library waiting. */
  lemma StillAsking(y: Sys, s: Step, t: Slot, i: nat) returns (z: Sys)
    requires AskingAt(y, i) && t.open && Next(y.hub, s, WithSlot(y.hub, i, t))
    requires s.Hear? || (s.Obey? && s.i == i && RequestOf(s.c) == Query && y.hub.slots[i].greetings == 0)
    ensures Moved(y, Bridge(s), z) && SameTruth(y, z) && z.lib == y.lib && AskingAt(z, i)
    ensures z.hub == WithSlot(y.hub, i, t)
  {
    z := y.(hub := WithSlot(y.hub, i, t));
    assert Relinked(z.hub, y.events) == y.events && Relinked(z.hub, y.monitor) == y.monitor;
  }

  lemma HearQuery(y: Sys, i: nat) returns (z: Sys)
    requires AskingAt(y, i) && y.hub.slots[i] == FRESH_SLOT
    ensures Moved(y, Bridge(Hear(i, EncodeControl(QUERY))), z) && SameTruth(y, z) && z.lib == y.lib && AskingAt(z, i)
    ensures z.hub.slots[i] == Hearing(FRESH_SLOT, EncodeControl(QUERY)) && z.hub.descriptor == y.hub.descriptor
  {
    z := StillAsking(y, Hear(i, EncodeControl(QUERY)), Hearing(FRESH_SLOT, EncodeControl(QUERY)), i);
  }

  lemma TakenQuery(h: Hub, i: nat, b: seq<byte>)
    requires i < 16 && h.slots[i] == Hearing(FRESH_SLOT, b) && |b| == CONTROL_SIZE
    ensures Taken(h, i) == WithSlot(h, i, FRESH_SLOT.(heard := b, ran := [b])) && h.slots[i].left == b
  {
    var s := Hearing(FRESH_SLOT, b);
    assert s.left == b && s.left[..CONTROL_SIZE] == b && s.left[CONTROL_SIZE..] == [] && s.ran + [b] == [b];
  }

  /** All of the answer to the QUERY has been sent. */
  ghost predicate AnsweredAt(h: Hub, i: nat)
    requires i < 16
  {
    var t := h.slots[i];
    t.sent == |LogBytes(t.log)| && |t.log| > 0 && t.log[0].body == Descriptor(h.descriptor)
  }

  lemma ObeyQuery(h: Hub, i: nat) returns (t: Slot)
    requires i < 16 && h.slots[i] == Hearing(FRESH_SLOT, EncodeControl(QUERY)) && h.descriptor.present != 0
    ensures Next(h, Obey(i, QUERY), WithSlot(h, i, t)) && t.open && AnsweredAt(WithSlot(h, i, t), i)
  {
    var k := Taken(h, i);
    TakenQuery(h, i, EncodeControl(QUERY));
    OffersWhole(h.slots[i], QUERY);
    t := QueryAtOnce(k, i);
    assert h.slots[i := k.slots[i]][i := t] == h.slots[i := t];
    assert Performed(k, WithSlot(h, i, t), i, QUERY, true);
  }

  lemma AnswerQuery(y: Sys, i: nat) returns (z: Sys)
    requires AskingAt(y, i) && y.hub.slots[i] == Hearing(FRESH_SLOT, EncodeControl(QUERY)) && y.hub.descriptor.present != 0
    ensures Moved(y, Bridge(Obey(i, QUERY)), z) && SameTruth(y, z) && z.lib == y.lib && AskingAt(z, i) && AnsweredAt(z.hub, i)
  {
    var t := ObeyQuery(y.hub, i);
    z := StillAsking(y, Obey(i, QUERY), t, i);
  }

  /** The descriptor is there and is a present device's. */
  lemma DescriptorReadable(h: Hub, i: nat)
    requires i < 16 && AnsweredAt(h, i) && EventSlot(h.slots[i]) && DeviceInv(h) && h.descriptor.present != 0
    ensures Readable(h, Attached(i, 0), DESCRIPTOR_SIZE) && DESCRIPTOR_SIZE <= h.slots[i].sent
    ensures DecodeDescriptor(ReadFrom(h, Attached(i, 0), DESCRIPTOR_SIZE)) == h.descriptor && Streamable(h.descriptor)
  {
    RecordsOfLog(h.slots[i].log);
    Described(h.slots[i].log);
  }

  lemma {:induction false} FinishQuery(y: Sys, i: nat) returns (z: Sys)
    requires AskingAt(y, i) && AnsweredAt(y.hub, i) && EventSlot(y.hub.slots[i]) && DeviceInv(y.hub) && y.hub.descriptor.present != 0
    ensures EventsFinished(y, z) && z.hub == y.hub && z.monitor == y.monitor && z.phase == Idle && z.lib.events
    ensures z.events == Attached(i, DESCRIPTOR_SIZE) && z.lib.device == y.lib.device
  {
    DescriptorReadable(y.hub, i);
    z := y.(lib := Do(y.lib, EventsOpened(y.hub.descriptor)), phase := Idle, events := Attached(i, DESCRIPTOR_SIZE));
  }

  lemma SameTruthTransitive(x: Sys, y: Sys, z: Sys)
    requires SameTruth(x, y) && SameTruth(y, z)
    ensures SameTruth(x, z)
  {}

  /** Present devices on both sides. */
  lemma WaitingHasDevice(y: Sys)
    requires Inv(y) && Waiting(y)
    ensures y.hub.descriptor.present != 0
  {
    Sides(y);
    MonitorDrained(y.hub, y.lib, y.monitor);
  }

  /** Asking for the event stream: connected, and the QUERY answered. */
  lemma AskAgain(run: seq<Sys>) returns (more: seq<Sys>, i: nat)
    requires Run(run) && Waiting(Last(run)) && SomeFree(Last(run).hub) && Last(run).hub.descriptor.present != 0
    ensures Run(more) && SameTruth(Last(run), Last(more)) && AskingAt(Last(more), i) && AnsweredAt(Last(more).hub, i)
  {
    var z;
    i, z := Connect(Last(run));
    RunOn(run, ConnectEvents(i), z);
    var z2 := HearQuery(z, i);
    RunOn(run + [z], Bridge(Hear(i, EncodeControl(QUERY))), z2);
    SameTruthTransitive(Last(run), z, z2);
    var z3 := AnswerQuery(z2, i);
    RunOn(run + [z] + [z2], Bridge(Obey(i, QUERY)), z3);
    SameTruthTransitive(Last(run), z2, z3);
    more := run + [z] + [z2] + [z3];
  }

  lemma AskingSlot(y: Sys, i: nat)
    requires Inv(y) && AskingAt(y, i)
    ensures EventSlot(y.hub.slots[i]) && DeviceInv(y.hub)
  {
    assert Kinds(y.hub, y.monitor, y.events);
  }

  /** The stream is open and read to its end. */
  lemma Reopen(run: seq<Sys>) returns (more: seq<Sys>)
    requires Run(run) && Waiting(Last(run)) && SomeFree(Last(run).hub)
    ensures Run(more) && SameTruth(Last(run), Last(more)) && Last(more).phase == Idle
    ensures var z := Last(more); z.lib.events && Drained(z.hub, z.monitor) && Drained(z.hub, z.events)
  {
    RunKeeps(run);
    WaitingHasDevice(Last(run));
    var i;
    more, i := AskAgain(run);
    RunKeeps(more);
    var y := Last(more);
    AskingSlot(y, i);
    DescriptorReadable(y.hub, i);
    var z := FinishQuery(y, i);
    RunOn(more, FinishEvents, z);
    SameTruthTransitive(Last(run), y, z);
    more := EventsCanDrain(more + [z]);
  }

  /** Without an event stream, and with a slot to be had: one that is free, or one the library has just left. */
  lemma Restart(run: seq<Sys>, j: nat) returns (more: seq<Sys>)
    requires Run(run) && Waiting(Last(run))
    requires SomeFree(Last(run).hub) || (j < 16 && j != Last(run).monitor.i && Last(run).hub.slots[j].open)
    ensures Run(more) && SameTruth(Last(run), Last(more)) && Last(more).phase == Idle
    ensures var z := Last(more); z.lib.events && Drained(z.hub, z.monitor) && Drained(z.hub, z.events)
  {
    if SomeFree(Last(run).hub) {
      more := Reopen(run);
    } else {
      var z := FreeSlot(Last(run), j);
      RunOn(run, Bridge(Close(j)), z);
      more := Reopen(run + [z]);
      SameTruthTransitive(Last(run), z, Last(more));
    }
  }

  lemma NowWaiting(y: Sys)
    requires Inv(y) && y.phase == Idle && Drained(y.hub, y.monitor) && !y.lib.events && y.lib.device.present != 0
    ensures Waiting(y)
  {
    Sides(y);
  }

  /** Where the event connection was, or else some free slot. */
  lemma OldSlot(y: Sys) returns (j: nat)
    requires Inv(y) && y.phase == Idle && y.lib.monitor && SentAll(y.hub, y.monitor)
    requires if y.lib.events then SentAll(y.hub, y.events) else SomeFree(y.hub)
    ensures SomeFree(y.hub) || (j < 16 && j != y.monitor.i && y.hub.slots[j].open)
  {
    Sides(y);
    j := if y.lib.events then y.events.i else 0;
  }

  /** The library shows the bridge's device and state, and has an event stream when there is a device. */
  ghost predicate InAgreement(z: Sys) {
    && z.phase == Idle
    && z.lib.device == Project(z.hub.descriptor)
    && z.lib.replica.shape == View(z.hub.pad)
    && (z.lib.events <==> z.hub.deviceId >= 0)
  }

  /** Once the monitor has been read to its end: the event stream stands, ... */
  lemma ReadOn(run: seq<Sys>) returns (more: seq<Sys>)
    requires Run(run) && Last(run).phase == Idle && Last(run).lib.events
    requires Drained(Last(run).hub, Last(run).monitor) && SentAll(Last(run).hub, Last(run).events)
    ensures Run(more) && Last(more).hub == Last(run).hub && InAgreement(Last(more))
  {
    RunKeeps(run);
    TakenIsSent(Last(run));
    more := EventsCanDrain(run);
    ReplicaAgrees(more);
  }

  /** ... or it is opened again, ... */
  lemma StartOver(run: seq<Sys>, j: nat) returns (more: seq<Sys>)
    requires Run(run) && Last(run).phase == Idle && !Last(run).lib.events && Last(run).lib.device.present != 0
    requires Drained(Last(run).hub, Last(run).monitor)
    requires SomeFree(Last(run).hub) || (j < 16 && j != Last(run).monitor.i && Last(run).hub.slots[j].open)
    ensures Run(more) && SameTruth(Last(run), Last(more)) && InAgreement(Last(more))
  {
    RunKeeps(run);
    NowWaiting(Last(run));
    more := Restart(run, j);
    ReplicaAgrees(more);
  }

  /** ... or there is no device. */
  lemma NothingThere(run: seq<Sys>)
    requires Run(run) && Last(run).phase == Idle && !Last(run).lib.events && Last(run).lib.device.present == 0
    requires Drained(Last(run).hub, Last(run).monitor)
    ensures InAgreement(Last(run))
  {
    AbsenceAgrees(run);
  }

  /**
   * Agreement can always be regained. From every state of every run in which the library is idle,
   * its connections stand, the sockets have taken everything and, if it has no event stream, some
   * entry of the bridge's table is free, the two can go on to agree on the device and its state, as
   * they are: by reading alone, or by opening the event stream once more when news of the device
   * has ended it.
   */
  lemma AgreementRegained(run: seq<Sys>) returns (more: seq<Sys>)
    requires Run(run)
    requires var y := Last(run);
      && y.phase == Idle && y.lib.monitor && SentAll(y.hub, y.monitor)
      && if y.lib.events then SentAll(y.hub, y.events) else SomeFree(y.hub)
    ensures Run(more) && InAgreement(Last(more))
    ensures var y, z := Last(run), Last(more); z.hub.pad == y.hub.pad && z.hub.descriptor == y.hub.descriptor
  {
    RunKeeps(run);
    TakenIsSent(Last(run));
    var j := OldSlot(Last(run));
    var read := MonitorCanDrain(run);
    if Last(read).lib.events {
      more := ReadOn(read);
    } else if Last(read).lib.device.present != 0 {
      more := StartOver(read, j);
    } else {
      more := read;
      NothingThere(read);
    }
  }
}
