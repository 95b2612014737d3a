/** One client's connection seen from the bridge: what its commands make of it, and the bytes it carries. */
module Links {
  import opened Bytes
  import opened Protocol
  import opened Controller
  import opened HubModel
  import opened HubSteps
  import opened HubLaws

  // -------------------------------------------------------------------- bytes

  lemma {:induction false} LogBytesGrow(a: seq<Msg>, b: seq<Msg>)
    requires a <= b
    ensures LogBytes(a) <= LogBytes(b)
    decreases |b|
  {
    if |a| < |b| {
      LogBytesGrow(a, b[..|b| - 1]);
    } else {
      assert a == b;
    }
  }

  /** A monitor stream is made of 96-byte announcements. */
  lemma {:induction false} MonitorBytes(log: seq<Msg>)
    requires MonitorLog(log)
    ensures |LogBytes(log)| == HOTPLUG_SIZE * |log|
  {
    if log != [] {
      MonitorBytes(log[..|log| - 1]);
      FaithfulBytes(log[|log| - 1]);
    }
  }

  lemma Within(a: seq<byte>, b: seq<byte>, i: nat, j: nat)
    requires i <= j <= |a|
    ensures (a + b)[i..j] == a[i..j]
    ensures (a + b)[|a|..|a| + |b|] == b
  {}

  lemma {:induction false} LastMessage(log: seq<Msg>)
    requires MonitorLog(log) && log != []
    ensures var front, m := log[..|log| - 1], log[|log| - 1];
      && LogBytes(log) == LogBytes(front) + m.bytes
      && m.bytes == EncodeHotplug(m.body.hotplug) && |LogBytes(front)| == HOTPLUG_SIZE * |front|
  {
    MonitorBytes(log[..|log| - 1]);
    assert GoodAnnouncement(log[|log| - 1]);
    FaithfulBytes(log[|log| - 1]);
  }

  /** The k-th announcement lies where it should. */
  lemma {:induction false} MonitorMessage(log: seq<Msg>, k: nat, at: nat)
    requires MonitorLog(log) && k < |log| && at == HOTPLUG_SIZE * k
    ensures at + HOTPLUG_SIZE <= |LogBytes(log)|
    ensures LogBytes(log)[at..at + HOTPLUG_SIZE] == EncodeHotplug(log[k].body.hotplug)
    decreases |log|
  {
    var n := |log| - 1;
    LastMessage(log);
    if k < n {
      MonitorMessage(log[..n], k, at);
      Within(LogBytes(log[..n]), log[n].bytes, at, at + HOTPLUG_SIZE);
    } else {
      Within(LogBytes(log[..n]), log[n].bytes, 0, 0);
    }
  }

  /** An event stream is a descriptor and then records. */
  lemma {:induction false} EventBytes(log: seq<Msg>)
    requires EventLog(log) && |log| > 0
    ensures LogBytes(log) == EncodeDescriptor(log[0].body.descriptor) + EncodeRecords(Flat(log))
  {
    var n := |log| - 1;
    var d := EncodeDescriptor(log[0].body.descriptor);
    FaithfulBytes(log[n]);
    if n == 0 {
      assert LogBytes(log[..0]) == [] && Flat(log[..0]) == [];
      assert [] + log[0].bytes == log[0].bytes;
      assert d + EncodeRecords([]) == d;
    } else {
      EventBytes(log[..n]);
      EncodeRecordsAppend(Flat(log[..n]), log[n].body.records);
      Regroup(d, EncodeRecords(Flat(log[..n])), EncodeRecords(log[n].body.records));
    }
  }

  // --------------------------------------------------------------------- roles

  /** Across a step, in which slot i was open: apart from a greeting nothing changes what it is. */
  ghost predicate SameRole(s: Slot, t: Slot) {
    t.greetings == s.greetings && t.epoch == s.epoch && (t.open ==> t.kind == s.kind)
  }

  predicate Greets(s: Step, i: nat) {
    s.Obey? && s.i == i && (RequestOf(s.c) == Query || RequestOf(s.c) == Monitor)
  }

  lemma RefreshRole(h: Hub, mid: Hub, g: Hub, a: Probe, i: nat)
    requires i < 16 && h.slots[i].open && GoodProbe(a) && Refreshed(h, mid, g, a)
    ensures SameRole(h.slots[i], g.slots[i])
  {
    if !(h.deviceId >= 0 && Unchanged(h, a)) {
      assert SameRole(h.slots[i], mid.slots[i]);
      if a.Found? && a.selectable {
        assert SameRole(mid.slots[i], g.slots[i]) || !mid.slots[i].open;
      }
    }
  }

  lemma PerformedElsewhere(h: Hub, g: Hub, j: nat, c: Control, ok: bool, i: nat)
    requires j < 16 && i < 16 && Performed(h, g, j, c, ok) && (i != j || RequestOf(c) == Play || RequestOf(c) == Stop)
    ensures Quiet(h.slots[i], g.slots[i])
  {
    match RequestOf(c)
    case Play =>
      var t: nat :| Rumbled(h, g, j, c, t);
      RumbleOthers(h, g, j, c, t);
    case Stop => StopOthers(h, g, j);
    case _ =>
  }

  lemma ServedRole(h: Hub, g: Hub, j: nat, c: Control, i: nat)
    requires j < 16 && i < 16 && Served(h, g, j, c) && !Greets(Obey(j, c), i)
    ensures SameRole(h.slots[i], g.slots[i])
  {
    if Performed(h, g, j, c, true) {
      PerformedElsewhere(h, g, j, c, true, i);
    } else {
      var mid :| Performed(h, mid, j, c, false) && mid.clock <= g.clock && g == CloseClient(mid, j, g.clock);
      CloseOthers(mid, j, g.clock);
      if i != j {
        PerformedElsewhere(h, mid, j, c, false, i);
      }
    }
  }

  lemma StepRole(h: Hub, s: Step, g: Hub, i: nat)
    requires i < 16 && h.slots[i].open && Next(h, s, g) && !Greets(s, i)
    ensures SameRole(h.slots[i], g.slots[i])
  {
    match s
    case Xi(device, source, e) =>
      var packet :| XiProcessed(h, g, device, source, e, packet);
    case Refresh(a) =>
      var mid :| Refreshed(h, mid, g, a);
      RefreshRole(h, mid, g, a, i);
    case Accept =>
      var k: nat :| AcceptedAt(h, g, k);
    case Flush(_) =>
    case Hear(_, _) =>
    case Close(j) => CloseOthers(h, j, g.clock);
    case Obey(j, c) => ServedRole(Taken(h, j), g, j, c, i);
    case Update(_) =>
  }

  /** A connection that sends nothing but one MONITOR. */
  ghost predicate MonitorSlot(t: Slot) {
    && t.greetings <= 1 && WellSent(t) && MonitorLog(t.log)
    && (t.greetings == 0 ==> t.log == [])
    && (t.open && t.greetings == 1 ==> t.kind == MonitorClient)
  }

  /** A connection that sends one QUERY, and rumble requests at will. */
  ghost predicate EventSlot(t: Slot) {
    && t.greetings <= 1 && WellSent(t) && EventLog(t.log)
    && (t.greetings == 0 ==> t.log == [])
    && (t.open && t.greetings == 1 ==> t.kind == EventClient)
  }

  ghost predicate MonitorObeyed(h: Hub, s: Step, i: nat)
    requires i < 16
  {
    s.Obey? && s.i == i ==> RequestOf(s.c) == Monitor && h.slots[i].greetings == 0
  }

  ghost predicate EventsObeyed(h: Hub, s: Step, i: nat)
    requires i < 16
  {
    s.Obey? && s.i == i ==>
      RequestOf(s.c) == Play || RequestOf(s.c) == Stop || (RequestOf(s.c) == Query && h.slots[i].greetings == 0)
  }

  lemma MonitorGrows(h: Hub, g: Hub, s: Slot, t: Slot)
    requires SlotInv(h, s) && SlotInv(g, t) && Evolves(h, g, s, t) && s.open && SameRole(s, t) && MonitorSlot(s)
    ensures MonitorSlot(t)
  {
    if s.greetings == 1 {
      assert MonitorLaw(h, s);
      assert t.log[0] == s.log[0] && GoodAnnouncement(s.log[0]);
    }
  }

  lemma EventsGrow(h: Hub, g: Hub, s: Slot, t: Slot)
    requires SlotInv(h, s) && SlotInv(g, t) && Evolves(h, g, s, t) && s.open && SameRole(s, t) && EventSlot(s)
    ensures EventSlot(t)
  {
    if s.greetings == 1 {
      assert EventLaw(h, s);
      assert t.log[0] == s.log[0];
      assert MonitorLog(t.log) ==> GoodAnnouncement(t.log[0]);
    }
  }

  lemma {:induction false} OneAnnouncement(h: Hub, log: seq<Msg>)
    requires DeviceInv(h) && (log == [] || log == [Announcement(h, CurrentAction(h))])
    ensures MonitorLog(log)
  {
    CurrentGood(h);
  }

  lemma MonitorRefused(h: Hub, mid: Hub, g: Hub, i: nat)
    requires i < 16 && h.slots[i].open && MonitorSlot(h.slots[i]) && h.slots[i].greetings == 0 && DeviceInv(h)
    requires MonitorAnswered(h, mid, i, false) && mid.clock <= g.clock && g == CloseClient(mid, i, g.clock)
    ensures MonitorSlot(g.slots[i])
  {
    CloseOthers(mid, i, g.clock);
    assert [] + [Announcement(h, CurrentAction(h))] == [Announcement(h, CurrentAction(h))];
    OneAnnouncement(h, mid.slots[i].log);
  }

  lemma MonitorAccepted(h: Hub, g: Hub, i: nat)
    requires i < 16 && HubInv(h) && h.slots[i].open && h.slots[i].greetings == 0 && MonitorAnswered(h, g, i, true)
    ensures MonitorSlot(g.slots[i])
  {
    MonitorKept(h, g, i);
    OneAnnouncement(h, g.slots[i].log);
  }

  lemma MonitorGreeted(h: Hub, g: Hub, i: nat, c: Control)
    requires i < 16 && HubInv(h) && h.slots[i].open && MonitorSlot(h.slots[i]) && h.slots[i].greetings == 0
    requires RequestOf(c) == Monitor && Served(h, g, i, c)
    ensures MonitorSlot(g.slots[i])
  {
    if Performed(h, g, i, c, true) {
      MonitorAccepted(h, g, i);
    } else {
      var mid :| Performed(h, mid, i, c, false) && mid.clock <= g.clock && g == CloseClient(mid, i, g.clock);
      MonitorRefused(h, mid, g, i);
    }
  }

  lemma EventsGreeted(h: Hub, g: Hub, i: nat, c: Control)
    requires i < 16 && HubInv(h) && h.slots[i].open && EventSlot(h.slots[i]) && h.slots[i].greetings == 0
    requires RequestOf(c) == Query && Served(h, g, i, c)
    ensures EventSlot(g.slots[i]) && g.slots[i].epoch == h.epoch == g.epoch
  {
    var d := DescriptorMsg(h);
    var u := Greeted(h, i, EventClient);
    assert u.log + [d] == [d];
    if Performed(h, g, i, c, true) {
      AnswerLog(h, u, g.slots[i], d);
      AnsweredLaw(h, g.slots[i], d);
    } else {
      var mid :| Performed(h, mid, i, c, false) && mid.clock <= g.clock && g == CloseClient(mid, i, g.clock);
      CloseOthers(mid, i, g.clock);
      DescriptorLaw(h, mid.slots[i].(log := [d]), d);
    }
  }

  /** A monitor connection stays one, whatever the bridge does. */
  lemma MonitorStep(h: Hub, s: Step, g: Hub, i: nat)
    requires i < 16 && HubInv(h) && Next(h, s, g) && h.slots[i].open
    requires MonitorSlot(h.slots[i]) && MonitorObeyed(h, s, i)
    ensures HubInv(g) && MonitorSlot(g.slots[i]) && Evolves(h, g, h.slots[i], g.slots[i])
    ensures h.slots[i].greetings == 1 ==> g.slots[i].greetings == 1
  {
    StepKept(h, s, g);
    if s.Obey? && s.i == i {
      InputKept(h, Taken(h, i), i);
      MonitorGreeted(Taken(h, i), g, i, s.c);
    } else {
      StepRole(h, s, g, i);
      MonitorGrows(h, g, h.slots[i], g.slots[i]);
    }
  }

  /** So does an event connection, and the epoch it belongs to is the one in which it asked. */
  lemma EventsStep(h: Hub, s: Step, g: Hub, i: nat)
    requires i < 16 && HubInv(h) && Next(h, s, g) && h.slots[i].open
    requires EventSlot(h.slots[i]) && EventsObeyed(h, s, i)
    ensures HubInv(g) && EventSlot(g.slots[i]) && Evolves(h, g, h.slots[i], g.slots[i])
    ensures h.slots[i].greetings == 1 ==> g.slots[i].greetings == 1 && g.slots[i].epoch == h.slots[i].epoch
    ensures h.slots[i].greetings == 0 && g.slots[i].greetings == 1 ==> g.slots[i].epoch == g.epoch
  {
    StepKept(h, s, g);
    if s.Obey? && s.i == i && RequestOf(s.c) == Query {
      InputKept(h, Taken(h, i), i);
      EventsGreeted(Taken(h, i), g, i, s.c);
    } else {
      StepRole(h, s, g, i);
      EventsGrow(h, g, h.slots[i], g.slots[i]);
    }
  }

  // ------------------------------------------------------- a query answered at once

  const QUERY: Control := Control(CONTROL_MAGIC, CONTROL_VERSION, CONTROL_QUERY_DESCRIPTOR, 0, 0, 0)

  lemma OffersWhole(s: Slot, c: Control)
    requires s.left == EncodeControl(c)
    ensures Offers(s, c)
  {
    assert s.left[..CONTROL_SIZE] == s.left;
    ControlRoundTrip(c);
  }

  function Stamped(es: seq<Event>): (rs: seq<Record>)
    ensures Bodies(rs) == es
  {
    seq(|es|, i requires 0 <= i < |es| => Record(Stamp(0, 0), es[i]))
  }

  /** A message with the snapshot of p. */
  lemma SnapshotOf(p: Pad) returns (m: Msg)
    ensures SnapshotMsg(m, p)
  {
    m := Wrap(Events(Stamped(Snapshot(p))));
    WrapFaithful(m.body);
    SnapshotIs(Snapshot(p), p);
  }

  lemma TwoMessages(u: Slot, t: Slot, d: Msg, m: Msg, p: Pad)
    requires u.open && u.log == [] && u.sent == 0 && SnapshotMsg(m, p)
    requires t == u.(log := [d] + [m], sent := |LogBytes([d] + [m])|)
    ensures SnapshotSent(u, t, d, p) && t.log[0] == d
  {
    assert u.log + [d] == [d] && ([d] + [m])[..1] == [d];
  }

  lemma QuerySent(h: Hub, i: nat, t: Slot)
    requires i < 16 && h.descriptor.present != 0 && t.open == h.slots[i].open && SameRequest(h.slots[i], t)
    requires SnapshotSent(Greeted(h, i, EventClient), t, DescriptorMsg(h), h.pad)
    ensures QueryAnswered(h, WithSlot(h, i, t), i, true)
  {
    QueueEffect(h, WithSlot(h, i, t), i);
  }

  /** A client that has just connected can be told all there is to tell. */
  lemma QueryAtOnce(h: Hub, i: nat) returns (t: Slot)
    requires i < 16 && h.descriptor.present != 0
    requires h.slots[i] == FRESH_SLOT.(heard := h.slots[i].heard, left := h.slots[i].left, ran := h.slots[i].ran)
    ensures QueryAnswered(h, WithSlot(h, i, t), i, true)
    ensures t.open && t.kind == EventClient && t.greetings == 1 && t.epoch == h.epoch
    ensures t.sent == |LogBytes(t.log)| && |t.log| > 0 && t.log[0].body == Descriptor(h.descriptor)
  {
    var u, d := Greeted(h, i, EventClient), DescriptorMsg(h);
    var m := SnapshotOf(h.pad);
    t := u.(log := [d] + [m], sent := |LogBytes([d] + [m])|);
    TwoMessages(u, t, d, m, h.pad);
    QuerySent(h, i, t);
  }
}
