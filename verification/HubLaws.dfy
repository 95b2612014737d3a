/** What every run of the bridge keeps, for each of its clients. */
module HubLaws {
  import opened Bytes
  import opened Protocol
  import opened Controller
  import opened HubModel
  import opened HubSteps

  // ------------------------------------------------------------------- streams

  ghost predicate GoodDescriptor(d: DeviceDescriptor) {
    d.magic == DEVICE_MAGIC && d.version == CONTROL_VERSION && d.present <= 1
  }

  ghost predicate GoodAnnouncement(m: Msg) {
    && m.body.Announce? && Faithful(m)
    && var a := m.body.hotplug;
      && a.magic == HOTPLUG_MAGIC && a.version == CONTROL_VERSION && GoodDescriptor(a.descriptor)
      && a.action == if a.descriptor.present != 0 then HOTPLUG_ADD else HOTPLUG_REMOVE
  }

  ghost function Action(m: Msg): int { if m.body.Announce? then m.body.hotplug.action else 0 }

  /** Announcements in strict alternation. */
  ghost predicate MonitorLog(log: seq<Msg>) {
    && (forall k :: 0 <= k < |log| ==> GoodAnnouncement(log[k]))
    && (forall k :: 0 < k < |log| ==> Action(log[k]) != Action(log[k - 1]))
  }

  /** All twenty cells in order, then a report. */
  ghost predicate SnapshotShape(es: seq<Event>) {
    |es| == 21 && es[20] == SYN && forall c :: 0 <= c < 20 ==> es[c] == CellEvent(c, es[c].value)
  }

  /** A descriptor and then events only; behind a present device's descriptor they start with a snapshot. */
  ghost predicate EventLog(log: seq<Msg>) {
    |log| > 0 ==>
      && log[0].body.Descriptor? && Faithful(log[0]) && GoodDescriptor(log[0].body.descriptor)
      && (forall k :: 0 < k < |log| ==> log[k].body.Events? && Faithful(log[k]))
      && (|log| > 1 && log[0].body.descriptor.present != 0 ==> SnapshotShape(Bodies(log[1].body.records)))
  }

  ghost predicate LogLaw(log: seq<Msg>) {
    MonitorLog(log) || EventLog(log)
  }

  // ---------------------------------------------------------------- invariant

  ghost predicate DeviceInv(h: Hub) {
    && ValidPad(h.pad)
    && GoodDescriptor(h.descriptor)
    && h.descriptor.deviceId == h.deviceId
    && (h.descriptor.present != 0 <==> h.deviceId >= 0)
    && (h.deviceId < 0 ==> h.deviceId == -1 && h.pad == ZERO_PAD)
  }

  /** Within the epoch in which a client asked, folding what was queued for it gives the bridge's state. */
  ghost predicate EventLaw(h: Hub, s: Slot) {
    && |s.log| > 0 && s.log[0].body.Descriptor? && EventLog(s.log)
    && (s.log[0].body.descriptor.present != 0 ==> |s.log| > 1)
    && (s.epoch == h.epoch && s.log[0].body.descriptor.present != 0 ==>
          && h.deviceId >= 0 && s.log[0].body.descriptor == h.descriptor
          && Fold(Wire(ZERO_PAD), Bodies(Flat(s.log))) == Wire(h.pad))
  }

  /** The last announcement queued for a monitor carries the current descriptor. */
  ghost predicate MonitorLaw(h: Hub, s: Slot) {
    && |s.log| > 0 && MonitorLog(s.log)
    && s.log[|s.log| - 1].body.hotplug.descriptor == h.descriptor
  }

  ghost predicate SlotInv(h: Hub, s: Slot) {
    match s
    case Slot(open, kind, log, _, greetings, epoch, _, _, _, _, _, _) =>
      && WellSent(s)
      && epoch <= h.epoch
      && (greetings == 0 ==> log == [] && kind == Uninitialized)
      && (greetings == 1 ==> LogLaw(log))
      && (greetings == 1 && open ==>
            (kind == EventClient && EventLaw(h, s)) || (kind == MonitorClient && MonitorLaw(h, s)))
  }

  ghost predicate HubInv(h: Hub) {
    && DeviceInv(h)
    && forall i :: 0 <= i < 16 ==> SlotInv(h, h.slots[i])
  }

  lemma InitialInv(h: Hub)
    requires Initial(h)
    ensures HubInv(h)
  {
    ZeroPadValid();
    assert SlotInv(h, FREE_SLOT);
  }

  lemma ZeroPadValid()
    ensures ValidPad(ZERO_PAD)
  {
    ResetIsViewOfZero();
  }

  // ------------------------------------------------------------- single slots

  /** Requests and progress of the socket do not matter. */
  lemma QuietKeeps(h: Hub, g: Hub, s: Slot, t: Slot)
    requires SlotInv(h, s) && WellSent(t) && SameDevice(h, g)
    requires Quiet(s.(sent := t.sent), t)
    ensures SlotInv(g, t)
  {}

  /** Nor does what became of a connection that is closed. */
  lemma ClosedKeeps(h: Hub, g: Hub, s: Slot, t: Slot)
    requires SlotInv(h, s) && WellSent(t) && h.epoch <= g.epoch
    requires Quiet(Closed(s.(log := t.log, sent := t.sent)), t)
    requires s.greetings == 0 ==> t.log == []
    requires s.greetings == 1 ==> LogLaw(t.log)
    ensures SlotInv(g, t)
  {}

  lemma FlatPush(log: seq<Msg>, m: Msg)
    requires m.body.Events?
    ensures Flat(log + [m]) == Flat(log) + m.body.records
  {
    Front(log, m);
  }

  lemma EventLogPush(log: seq<Msg>, m: Msg)
    requires EventLog(log) && |log| > 0 && m.body.Events? && Faithful(m)
    requires |log| == 1 && log[0].body.descriptor.present != 0 ==> SnapshotShape(Bodies(m.body.records))
    ensures EventLog(log + [m])
  {
    Front(log, m);
  }

  lemma MonitorLogPush(log: seq<Msg>, m: Msg)
    requires MonitorLog(log) && GoodAnnouncement(m)
    requires |log| > 0 ==> Action(log[|log| - 1]) != Action(m)
    ensures MonitorLog(log + [m])
  {
    var t := log + [m];
    forall k | 0 <= k < |t| ensures GoodAnnouncement(t[k]) && (k > 0 ==> Action(t[k]) != Action(t[k - 1])) {
      assert t[k] == if k < |log| then log[k] else m;
      assert k > 0 ==> t[k - 1] == log[k - 1];
    }
  }

  lemma SnapshotHasShape(p: Pad)
    ensures SnapshotShape(Snapshot(p))
  {
    forall c | 0 <= c < 20 ensures Snapshot(p)[c] == CellEvent(c, Snapshot(p)[c].value) {
      assert Snapshot(p)[c] == AllCells(Wire(p), 20)[c];
    }
  }

  // ------------------------------------------------------------------ evolution

  ghost predicate RemoveAfter(log: seq<Msg>, n: nat) {
    exists k :: n <= k < |log| && Action(log[k]) == HOTPLUG_REMOVE as int
  }

  /**
   * One connection across a step: its log and its progress only grow, only its own commands
   * change what it is, and no device goes away without a monitor being told.
   */
  ghost predicate Evolves(h: Hub, g: Hub, s: Slot, t: Slot) {
    && h.epoch <= g.epoch
    && (s.open ==>
      && s.log <= t.log && s.sent <= t.sent && s.greetings <= t.greetings
      && (t.open && t.greetings == s.greetings ==> t.kind == s.kind && t.epoch == s.epoch)
      && (t.open && t.greetings == 1 && s.greetings == 1 && s.kind == MonitorClient && h.epoch < g.epoch
          ==> RemoveAfter(t.log, |s.log|)))
  }

  ghost predicate Kept(h: Hub, g: Hub) {
    && HubInv(g)
    && forall i :: 0 <= i < 16 ==> Evolves(h, g, h.slots[i], g.slots[i])
  }

  /** A step of one client: the others' queues are as they were. */
  lemma ElsewhereKept(h: Hub, g: Hub, i: nat)
    requires i < 16 && HubInv(h) && Others(h, g, i)
    requires SlotInv(g, g.slots[i]) && Evolves(h, g, h.slots[i], g.slots[i])
    ensures Kept(h, g)
  {
    forall j | 0 <= j < 16 && j != i ensures SlotInv(g, g.slots[j]) && Evolves(h, g, h.slots[j], g.slots[j]) {
      QuietKeeps(h, g, h.slots[j], g.slots[j]);
    }
  }

  lemma UpdateKept(h: Hub, force: bool, now: nat)
    requires HubInv(h)
    ensures Kept(h, UpdateRumble(h, force, now))
  {
    var g := UpdateRumble(h, force, now);
    forall j | 0 <= j < 16 ensures SlotInv(g, g.slots[j]) && Evolves(h, g, h.slots[j], g.slots[j]) {
      QuietKeeps(h, g, h.slots[j], g.slots[j]);
    }
  }

  lemma CloseKept(h: Hub, i: nat, now: nat)
    requires i < 16 && HubInv(h) && h.clock <= now
    ensures Kept(h, CloseClient(h, i, now))
  {
    var g := CloseClient(h, i, now);
    CloseOthers(h, i, now);
    ClosedKeeps(h, g, h.slots[i], g.slots[i]);
    ElsewhereKept(h, g, i);
  }

  lemma FlushKept(h: Hub, g: Hub, i: nat)
    requires i < 16 && HubInv(h) && Flushed(h, g, i)
    ensures Kept(h, g)
  {
    QuietKeeps(h, g, h.slots[i], g.slots[i]);
    ElsewhereKept(h, g, i);
  }

  lemma AcceptKept(h: Hub, g: Hub, i: nat)
    requires HubInv(h) && AcceptedAt(h, g, i)
    ensures Kept(h, g)
  {
    assert SlotInv(g, FRESH_SLOT);
    forall j | 0 <= j < 16 ensures SlotInv(g, g.slots[j]) && Evolves(h, g, h.slots[j], g.slots[j]) {
      if j != i {
        QuietKeeps(h, g, h.slots[j], g.slots[j]);
      }
    }
  }

  // ------------------------------------------------------------ input of the device

  /** The cells are the same when there is nothing to send. */
  lemma NothingToSend(p: Pad, q: Pad)
    requires Packet(p, q) == []
    ensures Wire(p) == Wire(q)
  {
    var v, w := Wire(p), Wire(q);
    assert v[..20] == v && w[..20] == w;
  }

  lemma QuietPad(h: Hub, p: Pad, s: Slot)
    requires SlotInv(h, s) && Wire(h.pad) == Wire(p)
    ensures SlotInv(h.(pad := p), s)
  {}

  /** An event client is one packet further, or closed. */
  lemma PacketDelivered(h: Hub, g: Hub, s: Slot, t: Slot, packet: seq<Record>)
    requires SlotInv(h, s) && s.open && s.kind == EventClient && h.deviceId >= 0
    requires SameDevice(h.(pad := g.pad), g)
    requires Bodies(packet) == Packet(h.pad, g.pad)
    requires Delivered(s, t, Wrap(Events(packet)))
    ensures SlotInv(g, t) && Evolves(h, g, s, t)
  {
    var m := Wrap(Events(packet));
    if s.greetings == 1 {
      PacketLaw(h, g.pad, s, packet);
    }
    if !t.open {
      ClosedKeeps(h, g, s, t);
    }
  }

  lemma PacketLaw(h: Hub, p: Pad, s: Slot, packet: seq<Record>)
    requires EventLaw(h, s) && Bodies(packet) == Packet(h.pad, p)
    ensures var log := s.log + [Wrap(Events(packet))];
      && EventLog(log) && log[0] == s.log[0]
      && (s.epoch == h.epoch && log[0].body.descriptor.present != 0
          ==> Fold(Wire(ZERO_PAD), Bodies(Flat(log))) == Wire(p))
  {
    var m := Wrap(Events(packet));
    EventLogPush(s.log, m);
    FlatPush(s.log, m);
    BodiesAppend(Flat(s.log), packet);
    FoldAppend(Wire(ZERO_PAD), Bodies(Flat(s.log)), Bodies(packet));
    if s.epoch == h.epoch && s.log[0].body.descriptor.present != 0 {
      PacketAdvances(h.pad, p);
    }
  }

  lemma XiKept(h: Hub, g: Hub, device: nat, source: nat, e: XiEvent, packet: seq<Record>)
    requires HubInv(h) && WellFormed(e) && XiProcessed(h, g, device, source, e, packet)
    ensures Kept(h, g)
  {
    if device == h.deviceId || source == h.deviceId {
      NextPadValid(h.pad, e);
      assert g.pad == NextPad(h.pad, e);
      if packet == [] {
        NothingToSend(h.pad, g.pad);
      }
      forall i | 0 <= i < 16 ensures SlotInv(g, g.slots[i]) && Evolves(h, g, h.slots[i], g.slots[i]) {
        var s, t := h.slots[i], g.slots[i];
        if packet == [] {
          QuietPad(h, g.pad, s);
        } else if s.open && s.kind == EventClient {
          PacketDelivered(h, g, s, t, packet);
        } else {
          NotForEvents(h, g, s, t);
        }
      }
    }
  }

  /** Slots that are not event clients do not depend on the controller state. */
  lemma NotForEvents(h: Hub, g: Hub, s: Slot, t: Slot)
    requires SlotInv(h, s) && !(s.open && s.kind == EventClient) && SameDevice(h.(pad := g.pad), g) && Quiet(s, t)
    ensures SlotInv(g, t) && Evolves(h, g, s, t)
  {}

  // ------------------------------------------------------------------ the device

  /** A monitor has one announcement more, or is closed. */
  lemma AnnouncementDelivered(h: Hub, d: Hub, g: Hub, s: Slot, t: Slot, action: byte)
    requires SlotInv(h, s) && s.open && s.kind == MonitorClient
    requires DeviceInv(d) && SameDevice(d, g) && h.epoch <= d.epoch
    requires GoodAnnouncement(Announcement(d, action)) && (h.descriptor.present != 0 <==> d.descriptor.present == 0)
    requires action == HOTPLUG_REMOVE || h.epoch == d.epoch
    requires Delivered(s, t, Announcement(d, action))
    ensures SlotInv(g, t) && Evolves(h, g, s, t)
  {
    var m := Announcement(d, action);
    if s.greetings == 1 {
      MonitorLogPush(s.log, m);
    }
    if t.open {
      Front(s.log, m);
      assert Action(m) == action;
    } else {
      ClosedKeeps(h, g, s, t);
    }
  }

  /** Other clients hear nothing; what event clients know is outdated, or was so already. */
  lemma NotForMonitors(h: Hub, d: Hub, g: Hub, s: Slot, t: Slot)
    requires SlotInv(h, s) && !(s.open && s.kind == MonitorClient)
    requires SameDevice(d, g) && h.epoch <= d.epoch && Quiet(s, t)
    requires h.epoch == d.epoch ==> h.deviceId < 0
    ensures SlotInv(g, t) && Evolves(h, g, s, t)
  {}

  lemma AnnouncementKept(h: Hub, d: Hub, g: Hub, action: byte)
    requires HubInv(h) && DeviceInv(d) && d.slots == h.slots && h.epoch <= d.epoch
    requires GoodAnnouncement(Announcement(d, action)) && (h.descriptor.present != 0 <==> d.descriptor.present == 0)
    requires if h.deviceId < 0 then h.epoch == d.epoch else action == HOTPLUG_REMOVE && h.epoch < d.epoch
    requires Broadcasted(d, g, MonitorClient, Announcement(d, action))
    ensures Kept(h, g)
  {
    forall i | 0 <= i < 16 ensures SlotInv(g, g.slots[i]) && Evolves(h, g, h.slots[i], g.slots[i]) {
      if h.slots[i].open && h.slots[i].kind == MonitorClient {
        AnnouncementDelivered(h, d, g, h.slots[i], g.slots[i], action);
      } else {
        NotForMonitors(h, d, g, h.slots[i], g.slots[i]);
      }
    }
  }

  lemma RemovedGood(h: Hub)
    requires HubInv(h) && h.deviceId >= 0
    ensures DeviceInv(Removed(h)) && GoodAnnouncement(Announcement(Removed(h), HOTPLUG_REMOVE))
  {
    ZeroPadValid();
  }

  lemma AddedGood(h: Hub, a: Probe)
    requires HubInv(h) && h.deviceId < 0 && a.Found? && GoodProbe(a)
    ensures DeviceInv(Added(h, a)) && GoodAnnouncement(Announcement(Added(h, a), HOTPLUG_ADD))
  {}

  lemma KeptTransitive(h: Hub, g: Hub, k: Hub)
    requires Kept(h, g) && Kept(g, k)
    requires forall i :: 0 <= i < 16 && h.slots[i].open && !g.slots[i].open ==> Quiet(g.slots[i], k.slots[i])
    ensures Kept(h, k)
  {}

  lemma RefreshKept(h: Hub, mid: Hub, g: Hub, a: Probe)
    requires HubInv(h) && GoodProbe(a) && Refreshed(h, mid, g, a)
    ensures Kept(h, g)
  {
    if !(h.deviceId >= 0 && Unchanged(h, a)) {
      if h.deviceId >= 0 {
        RemovedGood(h);
        AnnouncementKept(h, Removed(h), mid, HOTPLUG_REMOVE);
      }
      assert Kept(h, mid);
      if a.Found? && a.selectable {
        AddedGood(mid, a);
        AnnouncementKept(mid, Added(mid, a), g, HOTPLUG_ADD);
        KeptTransitive(h, mid, g);
      }
    }
  }

  /**
   * A refresh settles: asked again, the same device is recognized by all that is compared, so it is
   * neither removed nor added a second time.
   */
  lemma RefreshSettles(h: Hub, mid: Hub, g: Hub, a: Probe, mid': Hub, k: Hub)
    requires GoodProbe(a) && Refreshed(h, mid, g, a) && a.Found? && a.selectable
    requires Refreshed(g, mid', k, a)
    ensures Unchanged(g, a) && g.deviceId == a.deviceId && k == g
  {}

  // -------------------------------------------------------------------- commands

  /** A descriptor followed by a snapshot tells everything. */
  lemma SnapshotTells(d: Msg, m: Msg, p: Pad)
    requires d.body.Descriptor? && SnapshotMsg(m, p)
    ensures SnapshotShape(Bodies(m.body.records))
    ensures Fold(Wire(ZERO_PAD), Bodies(Flat([d] + [m]))) == Wire(p)
  {
    SnapshotIs(Bodies(m.body.records), p);
    SnapshotHasShape(p);
    SnapshotDetermines(Wire(ZERO_PAD), p);
    FlatPush([d], m);
    assert Flat([d]) == [];
    assert [] + m.body.records == m.body.records;
  }

  ghost predicate DescribesNow(h: Hub, d: Msg) {
    Faithful(d) && d.body == Descriptor(h.descriptor)
  }

  lemma DescribedNow(h: Hub)
    ensures DescribesNow(h, DescriptorMsg(h))
  {
    WrapFaithful(Descriptor(h.descriptor));
  }

  lemma DescriptorLaw(h: Hub, t: Slot, d: Msg)
    requires DeviceInv(h) && DescribesNow(h, d) && t.log == [d]
    ensures EventLog(t.log)
    ensures h.descriptor.present == 0 ==> EventLaw(h, t)
  {}

  lemma SnapshotLaw(h: Hub, t: Slot, d: Msg, m: Msg)
    requires DeviceInv(h) && DescribesNow(h, d) && t.log == [d] + [m] && h.descriptor.present != 0 && SnapshotMsg(m, h.pad)
    ensures EventLaw(h, t)
  {
    SnapshotTells(d, m, h.pad);
    EventLogPush([d], m);
  }

  lemma SameDeviceKeeps(h: Hub, g: Hub, t: Slot)
    requires SameDevice(h, g) && SlotInv(h, t)
    ensures SlotInv(g, t)
  {}

  /** The log of a client whose first command is a QUERY. */
  ghost predicate Answered(h: Hub, d: Msg, log: seq<Msg>, whole: bool) {
    || (log == [d] && (h.descriptor.present == 0 || !whole))
    || (|log| == 2 && log[..1] == [d] && h.descriptor.present != 0 && SnapshotMsg(log[1], h.pad))
  }

  lemma AnsweredLaw(h: Hub, t: Slot, d: Msg)
    requires DeviceInv(h) && DescribesNow(h, d) && Answered(h, d, t.log, t.open)
    ensures LogLaw(t.log)
    ensures t.open ==> EventLaw(h, t)
  {
    if t.log == [d] {
      DescriptorLaw(h, t, d);
    } else {
      assert t.log == [d] + [t.log[1]];
      SnapshotLaw(h, t, d, t.log[1]);
    }
  }

  lemma AnswerLog(h: Hub, u: Slot, t: Slot, d: Msg)
    requires u.open && u.log == []
    requires if h.descriptor.present == 0 then Enqueues(u, t, d) else SnapshotSent(u, t, d, h.pad)
    ensures Answered(h, d, t.log, t.open)
  {
    assert u.log + [d] == [d];
  }

  /** After a first answer: open with the whole answer, or closed with what there was of it. */
  lemma FirstAnswered(h: Hub, t: Slot)
    requires t.greetings == 1 && t.epoch == h.epoch && WellSent(t) && LogLaw(t.log)
    requires t.open ==> (t.kind == EventClient && EventLaw(h, t)) || (t.kind == MonitorClient && MonitorLaw(h, t))
    ensures SlotInv(h, t)
  {}

  /** Nothing is promised to a connection that asked twice. */
  lemma LaterAnswered(h: Hub, t: Slot)
    requires t.greetings > 1 && t.epoch == h.epoch && WellSent(t)
    ensures SlotInv(h, t)
  {}

  /** What became of client s, when the log of t is what it was and perhaps an answer. */
  lemma AnswerEvolves(h: Hub, s: Slot, t: Slot)
    requires s.log <= t.log && s.sent <= t.sent && t.greetings == s.greetings + 1
    ensures Evolves(h, h, s, t)
  {}

  lemma AnswerEnds(h: Hub, u: Slot, t: Slot, d: Msg)
    requires if h.descriptor.present == 0 then Enqueues(u, t, d) else SnapshotSent(u, t, d, h.pad)
    ensures u.log <= t.log && u.sent <= t.sent && WellSent(t)
    ensures t.greetings == u.greetings && t.epoch == u.epoch && (t.open ==> t.kind == u.kind)
  {}

  lemma QuerySlot(h: Hub, s: Slot, u: Slot, t: Slot, d: Msg)
    requires DeviceInv(h) && SlotInv(h, s) && s.open && DescribesNow(h, d)
    requires u == s.(kind := EventClient, greetings := s.greetings + 1, epoch := h.epoch)
    requires if h.descriptor.present == 0 then Enqueues(u, t, d) else SnapshotSent(u, t, d, h.pad)
    ensures SlotInv(h, t) && Evolves(h, h, s, t)
  {
    AnswerEnds(h, u, t, d);
    AnswerEvolves(h, s, t);
    if s.greetings == 0 {
      AnswerLog(h, u, t, d);
      AnsweredLaw(h, t, d);
      FirstAnswered(h, t);
    } else {
      LaterAnswered(h, t);
    }
  }

  lemma QueryKept(h: Hub, g: Hub, i: nat)
    requires i < 16 && HubInv(h) && h.slots[i].open && QueryAnswered(h, g, i, true)
    ensures Kept(h, g)
  {
    DescribedNow(h);
    QuerySlot(h, h.slots[i], Greeted(h, i, EventClient), g.slots[i], DescriptorMsg(h));
    SameDeviceKeeps(h, g, g.slots[i]);
    ElsewhereKept(h, g, i);
  }

  lemma RefusedLog(u: Slot, t: Slot, m: Msg)
    requires DescriptorRefused(u, t, m) && u.log == []
    ensures t.log == [] || t.log == [m]
  {
    assert u.log + [m] == [m];
  }

  lemma {:induction false} EmptyLog(log: seq<Msg>)
    requires log == []
    ensures LogLaw(log)
  {}

  /** What became of the client, once it is closed. */
  lemma {:induction false} RefusedSlot(h: Hub, s: Slot, u: Slot, t: Slot)
    requires SlotInv(h, s) && s.open && (s.greetings == 0 ==> LogLaw(t.log))
    requires u == s.(kind := u.kind, greetings := s.greetings + 1, epoch := h.epoch)
    requires t == u.(log := t.log, sent := t.sent) && u.log <= t.log && u.sent <= t.sent && WellSent(t)
    ensures SlotInv(h, Closed(t)) && Evolves(h, h, s, Closed(t))
  {
    AnswerEvolves(h, s, Closed(t));
    if s.greetings == 0 {
      FirstAnswered(h, Closed(t));
    } else {
      LaterAnswered(h, Closed(t));
    }
  }

  lemma {:induction false} RefusedLogLaw(h: Hub, s: Slot, u: Slot, t: Slot, m: Msg)
    requires SlotInv(h, s) && u.log == s.log && LogLaw([m]) && DescriptorRefused(u, t, m)
    ensures s.greetings == 0 ==> LogLaw(t.log)
  {
    if s.greetings == 0 {
      RefusedLog(u, t, m);
      if t.log == [] {
        EmptyLog(t.log);
      }
    }
  }

  /** A QUERY or MONITOR whose answer the socket refuses. */
  lemma RefusedKept(h: Hub, mid: Hub, i: nat, kind: Kind, m: Msg, now: nat)
    requires i < 16 && HubInv(h) && h.slots[i].open && mid.clock <= now && Others(h, mid, i)
    requires DescriptorRefused(Greeted(h, i, kind), mid.slots[i], m)
    requires LogLaw([m])
    ensures Kept(h, CloseClient(mid, i, now))
  {
    var g := CloseClient(mid, i, now);
    RefusedLogLaw(h, h.slots[i], Greeted(h, i, kind), mid.slots[i], m);
    RefusedSlot(h, h.slots[i], Greeted(h, i, kind), mid.slots[i]);
    CloseOthers(mid, i, now);
    QuietKeeps(h, g, Closed(mid.slots[i]), g.slots[i]);
    ElsewhereKept(h, g, i);
  }

  lemma CurrentGood(h: Hub)
    requires DeviceInv(h)
    ensures GoodAnnouncement(Announcement(h, CurrentAction(h)))
    ensures Announcement(h, CurrentAction(h)).body.hotplug.descriptor == h.descriptor
  {}

  lemma MonitorAnswerLaw(h: Hub, s: Slot, u: Slot, t: Slot, m: Msg)
    requires SlotInv(h, s) && s.open && GoodAnnouncement(m) && m.body.hotplug.descriptor == h.descriptor
    requires u == s.(kind := MonitorClient, greetings := s.greetings + 1, epoch := h.epoch)
    requires Enqueues(u, t, m)
    ensures SlotInv(h, t) && Evolves(h, h, s, t)
    ensures s.greetings == 0 ==> t.log == [m]
  {
    if s.greetings == 0 {
      assert t.log == [m];
    }
  }

  /** The first announcement tells what is the case. */
  lemma MonitorKept(h: Hub, g: Hub, i: nat)
    requires i < 16 && HubInv(h) && h.slots[i].open && MonitorAnswered(h, g, i, true)
    ensures Kept(h, g)
    ensures h.slots[i].greetings == 0 ==> g.slots[i].log == [Announcement(h, CurrentAction(h))]
  {
    CurrentGood(h);
    MonitorAnswerLaw(h, h.slots[i], Greeted(h, i, MonitorClient), g.slots[i], Announcement(h, CurrentAction(h)));
    SameDeviceKeeps(h, g, g.slots[i]);
    ElsewhereKept(h, g, i);
  }

  /** What a client sends, and what is taken of it, changes no queue. */
  lemma InputKept(h: Hub, g: Hub, i: nat)
    requires i < 16 && HubInv(h)
    requires g == WithSlot(h, i, h.slots[i].(heard := g.slots[i].heard, left := g.slots[i].left, ran := g.slots[i].ran))
    ensures Kept(h, g)
  {
    forall j | 0 <= j < 16 ensures SlotInv(g, g.slots[j]) && Evolves(h, g, h.slots[j], g.slots[j]) {
      SameQueue(h, g, h.slots[j], g.slots[j]);
    }
  }

  lemma SameQueue(h: Hub, g: Hub, s: Slot, t: Slot)
    requires SlotInv(h, s) && g == h.(slots := g.slots)
    requires t == s.(heard := t.heard, left := t.left, ran := t.ran)
    ensures SlotInv(g, t) && Evolves(h, g, s, t)
  {}

  lemma PerformedKept(h: Hub, g: Hub, i: nat, c: Control)
    requires i < 16 && HubInv(h) && h.slots[i].open && Performed(h, g, i, c, true)
    ensures Kept(h, g)
  {
    match RequestOf(c)
    case Play =>
      var t: nat :| Rumbled(h, g, i, c, t);
      RumbleOthers(h, g, i, c, t);
      QuietKeeps(h, g, h.slots[i], g.slots[i]);
      ElsewhereKept(h, g, i);
    case Stop =>
      StopOthers(h, g, i);
      QuietKeeps(h, g, h.slots[i], g.slots[i]);
      ElsewhereKept(h, g, i);
    case Query => QueryKept(h, g, i);
    case Monitor => MonitorKept(h, g, i);
    case Unknown =>
  }

  lemma DisobeyKept(h: Hub, mid: Hub, i: nat, c: Control, now: nat)
    requires i < 16 && HubInv(h) && h.slots[i].open && Performed(h, mid, i, c, false) && mid.clock <= now
    ensures Kept(h, CloseClient(mid, i, now))
  {
    match RequestOf(c)
    case Query =>
      RefusedKept(h, mid, i, EventClient, DescriptorMsg(h), now);
    case Monitor =>
      RefusedKept(h, mid, i, MonitorClient, Announcement(h, CurrentAction(h)), now);
    case Unknown => CloseKept(h, i, now);
    case _ =>
  }

  lemma ServedKept(h: Hub, g: Hub, i: nat, c: Control)
    requires i < 16 && HubInv(h) && h.slots[i].open && Served(h, g, i, c)
    ensures Kept(h, g)
  {
    if Performed(h, g, i, c, true) {
      PerformedKept(h, g, i, c);
    } else {
      var mid :| Performed(h, mid, i, c, false) && mid.clock <= g.clock && g == CloseClient(mid, i, g.clock);
      DisobeyKept(h, mid, i, c, g.clock);
    }
  }

  lemma ObeyKept(h: Hub, g: Hub, i: nat, c: Control)
    requires i < 16 && HubInv(h) && h.slots[i].open && Obeyed(h, g, i, c)
    ensures Kept(h, g)
  {
    InputKept(h, Taken(h, i), i);
    ServedKept(Taken(h, i), g, i, c);
    KeptTransitive(h, Taken(h, i), g);
  }

  /** Every step of the bridge keeps every connection's law. */
  lemma StepKept(h: Hub, s: Step, g: Hub)
    requires HubInv(h) && Next(h, s, g)
    ensures Kept(h, g)
  {
    match s
    case Xi(device, source, e) =>
      var packet :| XiProcessed(h, g, device, source, e, packet);
      XiKept(h, g, device, source, e, packet);
    case Refresh(a) =>
      var mid :| Refreshed(h, mid, g, a);
      RefreshKept(h, mid, g, a);
    case Accept =>
      var i: nat :| AcceptedAt(h, g, i);
      AcceptKept(h, g, i);
    case Flush(i) => FlushKept(h, g, i);
    case Hear(i, chunk) => InputKept(h, g, i);
    case Close(i) => CloseKept(h, i, g.clock);
    case Obey(i, c) => ObeyKept(h, g, i, c);
    case Update(force) => UpdateKept(h, force, g.clock);
  }

  /** ... and so does every run. */
  lemma {:induction false} RunKept(p: seq<Hub>, h: Hub, g: Hub)
    requires HubInv(h) && Path(p, h, g)
    ensures HubInv(g)
  {
    if |p| > 1 {
      var n := |p| - 1;
      Shorten(p, h, g);
      RunKept(p[..n], h, p[n - 1]);
      var s :| Next(p[n - 1], s, g);
      StepKept(p[n - 1], s, g);
    }
  }

  lemma ReachesKept(h: Hub, g: Hub)
    requires HubInv(h) && Reaches(h, g)
    ensures HubInv(g)
  {
    var p :| Path(p, h, g);
    RunKept(p, h, g);
  }

  /** Every reachable state obeys every law. */
  lemma ReachableInv(init: Hub, h: Hub)
    requires Initial(init) && Reaches(init, h)
    ensures HubInv(h)
  {
    InitialInv(init);
    var p :| Path(p, init, h);
    RunKept(p, init, h);
  }
}
