/** Between two packets the replica is an earlier state of the bridge. */
module History {
  import opened Protocol
  import opened Controller
  import opened HubModel
  import opened HubSteps
  import opened HubLaws
  import opened LibraryModel
  import opened Links
  import opened WholeSystem

  /** A reader of this much of a log sees p. */
  ghost predicate Tells(log: seq<Msg>, p: Pad) { Fold(Wire(ZERO_PAD), Bodies(Flat(log))) == Wire(p) }

  // -------------------------------------------------------------------- one step

  /** A connection of the present epoch, on which a snapshot was sent. */
  ghost predicate Current(h: Hub, t: Slot) { t.greetings == 1 && Live(t.log) && t.epoch == h.epoch }

  /** What a step may add to the log of an event connection: nothing, a packet, or the answer to its QUERY. */
  ghost predicate Adds(h: Hub, g: Hub, s: Slot, t: Slot) {
    || t.log == s.log
    || (|t.log| == |s.log| + 1 && t.log[..|s.log|] == s.log && (Current(h, s) && h.epoch == g.epoch ==> Tells(t.log, g.pad)))
    || (s.log == [] && |t.log| == 2 && Tells(t.log, g.pad))
  }

  lemma DeliveryAdds(h: Hub, g: Hub, s: Slot, t: Slot, packet: seq<Record>)
    requires SlotInv(h, s) && s.open && s.kind == EventClient && g.epoch == h.epoch
    requires Bodies(packet) == Packet(h.pad, g.pad) && Delivered(s, t, Wrap(Events(packet)))
    ensures Adds(h, g, s, t)
  {
    if t.log != s.log {
      assert t.log == s.log + [Wrap(Events(packet))];
      Front(s.log, Wrap(Events(packet)));
      if Current(h, s) {
        PacketLaw(h, g.pad, s, packet);
      }
    }
  }

  lemma XiAdds(h: Hub, g: Hub, device: nat, source: nat, e: XiEvent, packet: seq<Record>, i: nat)
    requires i < 16 && HubInv(h) && h.slots[i].open && WellFormed(e) && XiProcessed(h, g, device, source, e, packet)
    ensures Adds(h, g, h.slots[i], g.slots[i])
  {
    if g.slots[i].log != h.slots[i].log {
      assert g != h.(pad := g.pad);
      DeliveryAdds(h, g, h.slots[i], g.slots[i], packet);
    }
  }

  lemma QueryAdds(h: Hub, g: Hub, i: nat)
    requires i < 16 && HubInv(h) && h.slots[i].open && h.slots[i].log == [] && h.slots[i].greetings == 0
    requires QueryAnswered(h, g, i, true)
    ensures Adds(h, g, h.slots[i], g.slots[i]) && g.pad == h.pad
  {
    var d, t := DescriptorMsg(h), g.slots[i];
    AnswerLog(h, Greeted(h, i, EventClient), t, d);
    if t.log == [d] {
      assert t.log[..0] == [];
    } else {
      assert t.log == [d] + [t.log[1]];
      SnapshotTells(d, t.log[1], h.pad);
    }
  }

  lemma RefusalAdds(h: Hub, mid: Hub, g: Hub, i: nat)
    requires i < 16 && h.slots[i].log == [] && h.slots[i].greetings == 0 && QueryAnswered(h, mid, i, false)
    requires g == CloseClient(mid, i, g.clock)
    ensures Adds(h, g, h.slots[i], g.slots[i])
  {
    CloseOthers(mid, i, g.clock);
    RefusedLog(Greeted(h, i, EventClient), mid.slots[i], DescriptorMsg(h));
  }

  lemma ServedAdds(h: Hub, g: Hub, j: nat, c: Control, i: nat)
    requires i < 16 && j < 16 && HubInv(h) && h.slots[i].open && EventSlot(h.slots[i])
    requires Served(h, g, j, c) && EventsObeyed(h, Obey(j, c), i)
    ensures Adds(h, g, h.slots[i], g.slots[i])
  {
    if Performed(h, g, j, c, true) {
      if i == j && RequestOf(c) == Query {
        QueryAdds(h, g, i);
      } else {
        PerformedElsewhere(h, g, j, c, true, i);
      }
    } else {
      var mid :| Performed(h, mid, j, c, false) && mid.clock <= g.clock && g == CloseClient(mid, j, g.clock);
      if i == j && RequestOf(c) == Query {
        RefusalAdds(h, mid, g, i);
      } else {
        PerformedElsewhere(h, mid, j, c, false, i);
        CloseOthers(mid, j, g.clock);
      }
    }
  }

  lemma ObeyAdds(h: Hub, g: Hub, j: nat, c: Control, i: nat)
    requires i < 16 && j < 16 && HubInv(h) && h.slots[i].open && EventSlot(h.slots[i])
    requires Obeyed(h, g, j, c) && EventsObeyed(h, Obey(j, c), i)
    ensures Adds(h, g, h.slots[i], g.slots[i])
  {
    var k := Taken(h, j);
    InputKept(h, k, j);
    ServedAdds(k, g, j, c, i);
    assert k.slots[i].log == h.slots[i].log && Current(h, h.slots[i]) == Current(k, k.slots[i]);
  }

  lemma RefreshAdds(h: Hub, mid: Hub, g: Hub, a: Probe, i: nat)
    requires i < 16 && HubInv(h) && EventSlot(h.slots[i]) && h.slots[i].open && GoodProbe(a) && Refreshed(h, mid, g, a)
    ensures g.slots[i].log == h.slots[i].log
  {
    assert SlotInv(h, h.slots[i]);
    if !(h.deviceId >= 0 && Unchanged(h, a)) {
      assert Quiet(h.slots[i], mid.slots[i]);
      assert Quiet(mid.slots[i], g.slots[i]);
    }
  }

  lemma StepAdds(h: Hub, s: Step, g: Hub, i: nat)
    requires i < 16 && HubInv(h) && Next(h, s, g) && h.slots[i].open && EventSlot(h.slots[i]) && EventsObeyed(h, s, i)
    ensures Adds(h, g, h.slots[i], g.slots[i])
  {
    match s
    case Xi(device, source, e) =>
      var packet :| XiProcessed(h, g, device, source, e, packet);
      XiAdds(h, g, device, source, e, packet, i);
    case Refresh(a) =>
      var mid :| Refreshed(h, mid, g, a);
      RefreshAdds(h, mid, g, a, i);
    case Accept =>
      var k: nat :| AcceptedAt(h, g, k);
    case Flush(_) =>
    case Hear(_, _) =>
    case Close(j) => CloseOthers(h, j, g.clock);
    case Obey(j, c) => ObeyAdds(h, g, j, c, i);
    case Update(_) =>
  }

  // ------------------------------------------------------------------- every run

  /** Whatever this log has told by its n-th message was the bridge's state at some moment of the run. */
  ghost predicate SeenAt(run: seq<Sys>, log: seq<Msg>, n: nat)
    requires n <= |log|
  {
    exists m :: 0 <= m < |run| && Tells(log[..n], run[m].hub.pad)
  }

  ghost predicate Remembered(run: seq<Sys>, log: seq<Msg>) { forall n :: 2 <= n <= |log| ==> SeenAt(run, log, n) }

  lemma SeenLater(run: seq<Sys>, z: Sys, log: seq<Msg>, n: nat)
    requires n <= |log| && SeenAt(run, log, n)
    ensures SeenAt(run + [z], log, n)
  {
    var m :| 0 <= m < |run| && Tells(log[..n], run[m].hub.pad);
    assert (run + [z])[m] == run[m];
  }

  lemma SeenNow(run: seq<Sys>, z: Sys, log: seq<Msg>)
    requires Tells(log, z.hub.pad)
    ensures SeenAt(run + [z], log, |log|)
  {
    assert (run + [z])[|run|] == z && log[..|log|] == log;
  }

  lemma RememberedLater(run: seq<Sys>, z: Sys, log: seq<Msg>)
    requires Remembered(run, log)
    ensures Remembered(run + [z], log)
  {
    forall n | 2 <= n <= |log| ensures SeenAt(run + [z], log, n) {
      SeenLater(run, z, log, n);
    }
  }

  lemma RememberedMore(run: seq<Sys>, z: Sys, a: seq<Msg>, b: seq<Msg>)
    requires Remembered(run, a) && |b| == |a| + 1 && b[..|a|] == a && (|b| >= 2 ==> Tells(b, z.hub.pad))
    ensures Remembered(run + [z], b)
  {
    forall n | 2 <= n <= |b| ensures SeenAt(run + [z], b, n) {
      if n == |b| {
        SeenNow(run, z, b);
      } else {
        SeenLater(run, z, a, n);
        assert a[..n] == b[..n];
      }
    }
  }

  lemma RememberedAnswer(run: seq<Sys>, z: Sys, b: seq<Msg>)
    requires |b| == 2 && Tells(b, z.hub.pad)
    ensures Remembered(run + [z], b)
  {
    SeenNow(run, z, b);
  }

  /** The law of the event connection, wherever its far end is. */
  ghost predicate EndLaw(run: seq<Sys>, h: Hub, t: Slot) {
    t.epoch <= h.epoch && (Current(h, t) ==> Remembered(run, t.log))
  }

  ghost predicate HistoryLaw(run: seq<Sys>, y: Sys) {
    Sound(y.events) && (!y.events.Unlinked? ==> EndLaw(run, y.hub, End(y.hub, y.events)))
  }

  lemma AddsRemembers(run: seq<Sys>, h: Hub, z: Sys, s: Slot, t: Slot)
    requires Adds(h, z.hub, s, t) && s.log <= t.log && (Current(h, s) ==> Remembered(run, s.log))
    requires Current(z.hub, t) && h.epoch <= z.hub.epoch && (s.greetings == 0 ==> s.log == [])
    requires s.greetings == 1 ==> t.epoch == s.epoch <= h.epoch
    requires s.greetings <= 1
    ensures Remembered(run + [z], t.log)
  {
    if s.log == [] {
      if |t.log| == 2 {
        RememberedAnswer(run, z, t.log);
      }
    } else {
      assert t.log[0] == s.log[0];
      if t.log == s.log {
        RememberedLater(run, z, t.log);
      } else {
        RememberedMore(run, z, s.log, t.log);
      }
    }
  }

  /** The connection stands, or is closed in this very step. */
  lemma AttachedHistory(run: seq<Sys>, y: Sys, s: Step, z: Sys, i: nat)
    requires i < 16 && HubInv(y.hub) && Next(y.hub, s, z.hub) && y.hub.slots[i].open && EventSlot(y.hub.slots[i])
    requires EventsObeyed(y.hub, s, i) && EndLaw(run, y.hub, y.hub.slots[i])
    ensures EndLaw(run + [z], z.hub, z.hub.slots[i])
  {
    var h, g := y.hub, z.hub;
    EventsStep(h, s, g, i);
    StepAdds(h, s, g, i);
    assert SlotInv(g, g.slots[i]);
    if Current(g, g.slots[i]) {
      AddsRemembers(run, h, z, h.slots[i], g.slots[i]);
    }
  }

  lemma DetachedHistory(run: seq<Sys>, y: Sys, s: Step, z: Sys, t: Slot)
    requires HubInv(y.hub) && Next(y.hub, s, z.hub) && EndLaw(run, y.hub, t)
    ensures EndLaw(run + [z], z.hub, t)
  {
    StepKept(y.hub, s, z.hub);
    assert Evolves(y.hub, z.hub, y.hub.slots[0], z.hub.slots[0]);
    if Current(z.hub, t) {
      RememberedLater(run, z, t.log);
    }
  }

  lemma BridgeHistory(run: seq<Sys>, y: Sys, s: Step, z: Sys)
    requires Inv(y) && BridgeMoved(y, s, z) && HistoryLaw(run, y)
    ensures HistoryLaw(run + [z], z)
  {
    Sides(y);
    match y.events
    case Unlinked =>
    case Attached(i, _) => AttachedHistory(run, y, s, z, i);
    case Detached(end, _) => DetachedHistory(run, y, s, z, end);
  }

  /** Library moves leave both ends where they are. */
  lemma LibraryHistory(run: seq<Sys>, y: Sys, m: Move, z: Sys)
    requires OfLibrary(m) && Moved(y, m, z) && HistoryLaw(run, y)
    ensures HistoryLaw(run + [z], z)
  {
    LibraryEnds(y, m, z);
    if !z.events.Unlinked? && Current(z.hub, End(z.hub, z.events)) {
      RememberedLater(run, z, End(z.hub, z.events).log);
    }
  }

  lemma ConnectHistory(run: seq<Sys>, y: Sys, i: nat, z: Sys)
    requires EventsConnected(y, i, z)
    ensures HistoryLaw(run + [z], z)
  {
    assert z.hub.slots[i] == FRESH_SLOT;
  }

  lemma MonitorHistory(run: seq<Sys>, y: Sys, i: nat, z: Sys)
    requires Inv(y) && MonitorConnected(y, i, z) && HistoryLaw(run, y)
    ensures HistoryLaw(run + [z], z)
  {
    Sides(y);
    BridgeHistory(run, y, Accept, y.(hub := z.hub));
  }

  lemma MoveHistory(run: seq<Sys>, y: Sys, m: Move, z: Sys)
    requires Inv(y) && Moved(y, m, z) && HistoryLaw(run, y)
    ensures HistoryLaw(run + [z], z)
  {
    if OfLibrary(m) {
      LibraryHistory(run, y, m, z);
    } else {
      match m
      case Bridge(s) => BridgeHistory(run, y, s, z);
      case ConnectMonitor(i) => MonitorHistory(run, y, i, z);
      case ConnectEvents(i) => ConnectHistory(run, y, i, z);
    }
  }

  lemma {:induction false} RunHistory(run: seq<Sys>)
    requires Run(run)
    ensures HistoryLaw(run, Last(run))
  {
    var n := |run| - 1;
    if n > 0 {
      RunKeeps(run[..n]);
      RunHistory(run[..n]);
      assert SomeMove(run[n - 1], run[n]);
      var m :| Moved(run[n - 1], m, run[n]);
      MoveHistory(run[..n], run[n - 1], m, run[n]);
      assert run[..n] + [run[n]] == run;
    }
  }

  // --------------------------------------------------------------- the replica

  lemma LogUpTo(log: seq<Msg>, n: nat)
    requires EventLog(log) && 0 < n <= |log|
    ensures EventLog(log[..n]) && LogBytes(log[..n]) <= LogBytes(log)
  {
    LogBytesGrow(log[..n], log);
  }

  /** Reading up to the end of a message. */
  lemma ReadUpTo(l: Lib, log: seq<Msg>, n: nat, taken: nat)
    requires EventLog(log) && 0 < n <= |log| && taken == |LogBytes(log[..n])| && EventBytesRead(l, LogBytes(log), taken)
    ensures EventLog(log[..n]) && EventBytesRead(l, LogBytes(log[..n]), taken)
  {
    LogUpTo(log, n);
    PrefixSlice(LogBytes(log[..n]), LogBytes(log), DESCRIPTOR_SIZE, taken);
  }

  /** What has been read so far ends with the n-th message. */
  ghost predicate AtMessage(y: Sys, n: nat)
    requires Sound(y.events) && !y.events.Unlinked?
  {
    var log := End(y.hub, y.events).log;
    2 <= n <= |log| && y.events.taken == |LogBytes(log[..n])|
  }

  lemma ViewAtMessage(l: Lib, log: seq<Msg>, n: nat, taken: nat, p: Pad)
    requires EventLog(log) && 2 <= n <= |log| && taken == |LogBytes(log[..n])|
    requires EventBytesRead(l, LogBytes(log), taken) && Tells(log[..n], p)
    ensures l.replica.shape == View(p) && l.eventLeft == []
  {
    ReadUpTo(l, log, n, taken);
    FoldedView(l, log[..n], p);
  }

  /**
   * At every boundary between packets, on a stream of the device that is there, the replica is
   * what the bridge's state was at some moment of the run: the library may lag behind, but shows no
   * state that never was.
   */
  lemma ReplicaWas(run: seq<Sys>, n: nat) returns (m: nat)
    requires Run(run)
    requires var y := Last(run);
      && y.phase == Idle && y.lib.events && Sound(y.events) && !y.events.Unlinked?
      && AtMessage(y, n) && !Outdated(y.hub, End(y.hub, y.events))
    ensures m < |run| && Last(run).lib.replica.shape == View(run[m].hub.pad) && Last(run).lib.eventLeft == []
  {
    var y := Last(run);
    var t := End(y.hub, y.events);
    RunKeeps(run);
    RunHistory(run);
    Sides(y);
    assert EventSide(y.hub, y.lib, y.phase, y.events);
    EventSideRead(y.hub, y.lib, y.events);
    assert EventSlot(t);
    assert SeenAt(run, t.log, n);
    m :| 0 <= m < |run| && Tells(t.log[..n], run[m].hub.pad);
    ViewAtMessage(y.lib, t.log, n, y.events.taken, run[m].hub.pad);
  }
}
