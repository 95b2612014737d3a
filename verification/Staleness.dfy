/** What a reader of one event connection knows once its device has gone. */
module Staleness {
  import opened Bytes
  import opened Protocol
  import opened Controller
  import opened HubModel
  import opened HubSteps
  import opened HubLaws
  import opened Links

  /** A connection that asked for events once, while a device was there, and still stands. */
  ghost predicate Reading(s: Slot) {
    && s.open && s.greetings == 1 && s.kind == EventClient
    && |s.log| > 0 && s.log[0].body.Descriptor? && s.log[0].body.descriptor.present != 0
  }

  /** All the events queued on a connection. */
  function Heard(s: Slot): seq<Event> { Bodies(Flat(s.log)) }

  /** What its reader makes of them. */
  function Belief(s: Slot): Cells { Fold(Wire(ZERO_PAD), Heard(s)) }

  // -------------------------------------------------------------------- one step

  /** The reader is told of a change of the controller's state, if there is anything to tell. */
  ghost predicate Tells(p: Pad, q: Pad, a: seq<Msg>, b: seq<Msg>) {
    || (b == a && Wire(q) == Wire(p))
    || (|b| == |a| + 1 && b[..|a|] == a && b[|a|].body.Events? && Bodies(b[|a|].body.records) == Packet(p, q))
  }

  lemma XiTells(h: Hub, g: Hub, device: nat, source: nat, e: XiEvent, packet: seq<Record>, i: nat)
    requires i < 16 && Reading(h.slots[i]) && g.slots[i].open
    requires WellFormed(e) && XiProcessed(h, g, device, source, e, packet)
    ensures Tells(h.pad, g.pad, h.slots[i].log, g.slots[i].log)
  {
    if device == h.deviceId || source == h.deviceId {
      if packet == [] {
        NothingToSend(h.pad, g.pad);
      }
    }
  }

  lemma RefreshTells(h: Hub, mid: Hub, g: Hub, a: Probe, i: nat)
    requires i < 16 && Reading(h.slots[i]) && GoodProbe(a) && Refreshed(h, mid, g, a)
    ensures g.slots[i].log == h.slots[i].log && Reading(g.slots[i]) && g.slots[i].epoch == h.slots[i].epoch
    ensures if h.deviceId >= 0 && !Unchanged(h, a) then g.pad == ZERO_PAD && g.epoch == h.epoch + 1
            else g.pad == h.pad && g.epoch == h.epoch
  {
    if !(h.deviceId >= 0 && Unchanged(h, a)) {
      assert Quiet(h.slots[i], mid.slots[i]);
      assert Quiet(mid.slots[i], g.slots[i]);
    }
  }

  lemma ServedTells(h: Hub, g: Hub, j: nat, c: Control, i: nat)
    requires i < 16 && j < 16 && h.slots[j].open && Served(h, g, j, c)
    requires Reading(h.slots[i]) && Reading(g.slots[i])
    ensures g.slots[i].log == h.slots[i].log && g.pad == h.pad
  {
    if Performed(h, g, j, c, true) {
      if i != j || RequestOf(c) == Play || RequestOf(c) == Stop {
        PerformedElsewhere(h, g, j, c, true, i);
      }
      PerformedPad(h, g, j, c, true);
    } else {
      var mid :| Performed(h, mid, j, c, false) && mid.clock <= g.clock && g == CloseClient(mid, j, g.clock);
      CloseOthers(mid, j, g.clock);
      PerformedPad(h, mid, j, c, false);
      if i != j {
        PerformedElsewhere(h, mid, j, c, false, i);
      }
    }
  }

  lemma PerformedPad(h: Hub, g: Hub, j: nat, c: Control, ok: bool)
    requires j < 16 && Performed(h, g, j, c, ok)
    ensures g.pad == h.pad
    ensures RequestOf(c) == Query && ok && g.slots[j].open ==> g.slots[j].greetings == h.slots[j].greetings + 1
    ensures RequestOf(c) == Monitor && ok ==> g.slots[j].greetings == h.slots[j].greetings + 1
    ensures RequestOf(c) == Unknown ==> !ok
  {
    match RequestOf(c)
    case Play =>
      var t: nat :| Rumbled(h, g, j, c, t);
    case Stop =>
    case _ =>
  }

  /** One step with the same device: the reader's queue has the packet for the change, or nothing. */
  lemma StepTells(h: Hub, s: Step, g: Hub, i: nat)
    requires i < 16 && Next(h, s, g) && g.epoch == h.epoch && Reading(h.slots[i]) && Reading(g.slots[i])
    ensures Tells(h.pad, g.pad, h.slots[i].log, g.slots[i].log)
  {
    match s
    case Xi(device, source, e) =>
      var packet :| XiProcessed(h, g, device, source, e, packet);
      XiTells(h, g, device, source, e, packet, i);
    case Refresh(a) =>
      var mid :| Refreshed(h, mid, g, a);
      RefreshTells(h, mid, g, a, i);
    case Accept =>
      var k: nat :| AcceptedAt(h, g, k);
    case Flush(_) =>
    case Hear(_, _) =>
    case Close(j) => CloseOthers(h, j, g.clock);
    case Obey(j, c) => ServedTells(Taken(h, j), g, j, c, i);
    case Update(_) =>
  }

  lemma TellsPacket(p: Pad, q: Pad, a: seq<Msg>, b: seq<Msg>) returns (es: seq<Event>)
    requires Tells(p, q, a, b)
    ensures Bodies(Flat(b)) == Bodies(Flat(a)) + es && Fold(Wire(p), es) == Wire(q)
  {
    if b == a && Wire(q) == Wire(p) {
      es := [];
    } else {
      es := Packet(p, q);
      assert b == a + [b[|a|]];
      FlatPush(a, b[|a|]);
      BodiesAppend(Flat(a), b[|a|].body.records);
      PacketAdvances(p, q);
    }
  }

  // ------------------------------------------------------------------- every run

  /** The connection stands all along, and no device goes away. */
  ghost predicate Stands(p: seq<Hub>, i: nat)
    requires i < 16
  {
    forall k :: 0 <= k < |p| ==> Reading(p[k].slots[i]) && p[k].epoch == p[0].epoch
  }

  /** What was queued during a run takes the bridge's state at its start to the one at its end. */
  lemma {:induction false} RunTells(p: seq<Hub>, ss: seq<Step>, i: nat) returns (es: seq<Event>)
    requires i < 16 && Walk(p, ss) && Stands(p, i)
    ensures Heard(p[|ss|].slots[i]) == Heard(p[0].slots[i]) + es && Fold(Wire(p[0].pad), es) == Wire(p[|ss|].pad)
  {
    var n := |ss| - 1;
    if ss == [] {
      es := [];
    } else {
      var front := RunTells(p[..n + 1], ss[..n], i);
      StepTells(p[n], ss[n], p[n + 1], i);
      var last := TellsPacket(p[n].pad, p[n + 1].pad, p[n].slots[i].log, p[n + 1].slots[i].log);
      es := front + last;
      Regroup(Heard(p[0].slots[i]), front, last);
      FoldAppend(Wire(p[0].pad), front, last);
    }
  }

  /** The events queued since. */
  function Since(s: Slot, t: Slot): seq<Event> {
    if |Heard(s)| <= |Heard(t)| then Heard(t)[|Heard(s)|..] else []
  }

  /**
   * Cell by cell, over every run without a removal and whatever the reader believed at its start:
   * it agrees with the bridge on exactly the cells on which it agreed then or that were reported since.
   */
  lemma CellsRecover(p: seq<Hub>, ss: seq<Step>, i: nat, c: nat)
    requires i < 16 && c < 20 && Walk(p, ss) && Stands(p, i)
    ensures var h, g := p[0], p[|ss|];
      && Heard(h.slots[i]) <= Heard(g.slots[i])
      && (Belief(g.slots[i])[c] == Wire(g.pad)[c] <==>
            Belief(h.slots[i])[c] == Wire(h.pad)[c] || Mentioned(c, Since(h.slots[i], g.slots[i])))
  {
    var h, g := p[0], p[|ss|];
    var es := RunTells(p, ss, i);
    assert Since(h.slots[i], g.slots[i]) == es;
    FoldAppend(Wire(ZERO_PAD), Heard(h.slots[i]), es);
    FoldCell(Belief(h.slots[i]), Wire(h.pad), es, c);
  }

  // ------------------------------------------------------------------ the removal

  /** The device goes away in this refresh, whether or not another one comes. */
  ghost predicate Removes(h: Hub, g: Hub) {
    && g.epoch > h.epoch && exists a: Probe :: Next(h, Refresh(a), g)
  }

  lemma BeliefNow(h: Hub, i: nat)
    requires HubInv(h) && i < 16 && Reading(h.slots[i]) && h.slots[i].epoch == h.epoch
    ensures Belief(h.slots[i]) == Wire(h.pad)
  {
    assert SlotInv(h, h.slots[i]);
    assert EventLaw(h, h.slots[i]);
  }

  lemma RemovalStays(h: Hub, g: Hub, i: nat)
    requires i < 16 && Reading(h.slots[i]) && Removes(h, g)
    ensures Reading(g.slots[i]) && g.slots[i].log == h.slots[i].log && g.pad == ZERO_PAD
    ensures g.slots[i].epoch == h.slots[i].epoch
  {
    var a: Probe :| Next(h, Refresh(a), g);
    var mid :| Refreshed(h, mid, g, a);
    RefreshTells(h, mid, g, a, i);
  }

  /**
   * A removal is not reported. In every reachable state in which a device goes away, a connection
   * that was told about it agrees with the bridge afterwards if and only if all its controls were
   * at rest.
   */
  lemma AgreesAfterRemoval(init: Hub, h: Hub, g: Hub, i: nat)
    requires Initial(init) && Reaches(init, h) && Removes(h, g)
    requires i < 16 && Reading(h.slots[i]) && h.slots[i].epoch == h.epoch
    ensures Reading(g.slots[i]) && Belief(g.slots[i]) == Wire(h.pad)
    ensures Belief(g.slots[i]) == Wire(g.pad) <==> Wire(h.pad) == Wire(ZERO_PAD)
  {
    ReachableInv(init, h);
    BeliefNow(h, i);
    RemovalStays(h, g, i);
  }

  /** And over every run after it: on exactly the cells that were at rest then or reported since. */
  lemma StaleCells(init: Hub, h: Hub, p: seq<Hub>, ss: seq<Step>, i: nat, c: nat)
    requires Initial(init) && Reaches(init, h) && i < 16 && c < 20 && Walk(p, ss) && Stands(p, i) && Removes(h, p[0])
    requires Reading(h.slots[i]) && h.slots[i].epoch == h.epoch
    ensures var s, g := h.slots[i], p[|ss|];
      Belief(g.slots[i])[c] == Wire(g.pad)[c] <==>
        Wire(h.pad)[c] == Wire(ZERO_PAD)[c] || Mentioned(c, Since(s, g.slots[i]))
  {
    AgreesAfterRemoval(init, h, p[0], i);
    RemovalStays(h, p[0], i);
    CellsRecover(p, ss, i, c);
  }
}
