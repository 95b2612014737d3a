/** Runs of the bridge in which something one might expect of it fails. */
module Witnesses {
  import opened Bytes
  import opened Protocol
  import opened Controller
  import opened HubModel
  import opened HubSteps
  import opened HubLaws
  import opened Links
  import opened Staleness

  /** Two pads that can rumble. */
  const FIRST: Probe := Found(5, 1, 0, 0, 0, [], true)
  const SECOND: Probe := Found(6, 1, 0, 0, 0, [], true)

  lemma WalkMore(p: seq<Hub>, ss: seq<Step>, s: Step, g: Hub)
    requires Walk(p, ss) && Next(p[|ss|], s, g)
    ensures Walk(p + [g], ss + [s])
  {
    var q, tt := p + [g], ss + [s];
    forall k | 0 <= k < |tt| ensures Next(q[k], tt[k], q[k + 1]) {
      assert q[k] == p[k];
      if k < |ss| {
        assert q[k + 1] == p[k + 1] && tt[k] == ss[k];
      }
    }
  }

  // -------------------------------------------------------- steps without a monitor

  ghost predicate NoMonitors(h: Hub) { forall i :: 0 <= i < 16 && h.slots[i].open ==> h.slots[i].kind != MonitorClient }

  lemma NobodyTold(h: Hub, m: Msg)
    requires NoMonitors(h)
    ensures Broadcasted(h, h, MonitorClient, m)
  {
    EffectNone(h);
  }

  lemma SelectStep(h: Hub, a: Probe)
    requires NoMonitors(h) && h.deviceId < 0 && GoodProbe(a) && a.Found? && a.selectable
    ensures Refreshed(h, h, Added(h, a), a)
  {
    NobodyTold(Added(h, a), Announcement(Added(h, a), HOTPLUG_ADD));
  }

  lemma SwapStep(h: Hub, a: Probe)
    requires NoMonitors(h) && h.deviceId >= 0 && GoodProbe(a) && a.Found? && a.selectable && h.deviceId != a.deviceId
    ensures Refreshed(h, Removed(h), Added(Removed(h), a), a)
  {
    NobodyTold(Removed(h), Announcement(Removed(h), HOTPLUG_REMOVE));
    NobodyTold(Added(Removed(h), a), Announcement(Added(Removed(h), a), HOTPLUG_ADD));
  }

  lemma RemoveStep(h: Hub)
    requires NoMonitors(h) && h.deviceId >= 0
    ensures Refreshed(h, Removed(h), Removed(h), Nothing)
  {
    NobodyTold(Removed(h), Announcement(Removed(h), HOTPLUG_REMOVE));
  }

  // ------------------------------------------------------- a client and its command

  /** From the initial state o: the first device is there, a client has connected ... */
  function Connected(o: Hub): Hub { WithSlot(Added(o, FIRST), 0, FRESH_SLOT) }

  /** ... and sent b. */
  function Sent(o: Hub, b: seq<byte>): Hub { WithSlot(Connected(o), 0, Hearing(FRESH_SLOT, b)) }

  function Opening(b: seq<byte>): seq<Step> { [Refresh(FIRST), Accept, Hear(0, b)] }

  lemma Opened(o: Hub, b: seq<byte>)
    requires Initial(o)
    ensures Walk([o, Added(o, FIRST), Connected(o), Sent(o, b)], Opening(b))
  {
    SelectStep(o, FIRST);
    assert Next(o, Refresh(FIRST), Added(o, FIRST));
    assert AcceptedAt(Added(o, FIRST), Connected(o), 0);
    assert Next(Added(o, FIRST), Accept, Connected(o));
    assert Next(Connected(o), Hear(0, b), Sent(o, b));
  }

  /** The command has been taken. */
  function Parsed(o: Hub, b: seq<byte>): Hub { WithSlot(Connected(o), 0, FRESH_SLOT.(heard := b, ran := [b])) }

  lemma ParsedIs(o: Hub, b: seq<byte>)
    requires |b| == CONTROL_SIZE
    ensures Taken(Sent(o, b), 0) == Parsed(o, b)
  {
    var s := Hearing(FRESH_SLOT, b);
    assert s.left == b && s.left[..CONTROL_SIZE] == b && s.left[CONTROL_SIZE..] == [] && s.ran + [b] == [b];
    assert Sent(o, b).slots[0] == s;
    assert Connected(o).slots[0 := s][0 := TakenOff(s)] == Connected(o).slots[0 := TakenOff(s)];
  }

  /** What has been sent is one command, and is obeyed. */
  lemma ObeyStep(o: Hub, c: Control, g: Hub)
    requires GoodHeader(c) && Performed(Parsed(o, EncodeControl(c)), g, 0, c, true)
    ensures Next(Sent(o, EncodeControl(c)), Obey(0, c), g)
  {
    var b := EncodeControl(c);
    ParsedIs(o, b);
    assert [] + b == b;
    OffersWhole(Sent(o, b).slots[0], c);
  }

  // -------------------------------------------------------------------- the motor

  function Asked(h: Hub, c: Control): Hub {
    WithSlot(h, 0, h.slots[0].(low := c.low, high := c.high, expires := h.clock + RumbleMs(c))).(clock := h.clock)
  }

  /** The command is obeyed at once. */
  lemma Obeying(o: Hub, c: Control, g: Hub) returns (p: seq<Hub>)
    requires Initial(o) && GoodHeader(c) && Performed(Parsed(o, EncodeControl(c)), g, 0, c, true)
    ensures Walk(p, Opening(EncodeControl(c)) + [Obey(0, c)]) && p[0] == o && p[4] == g
  {
    var b := EncodeControl(c);
    Opened(o, b);
    p := [o, Added(o, FIRST), Connected(o), Sent(o, b)];
    ObeyStep(o, c, g);
    WalkMore(p, Opening(b), Obey(0, c), g);
    p := p + [g];
  }

  lemma Rumbling(o: Hub, c: Control) returns (p: seq<Hub>)
    requires Initial(o) && GoodHeader(c) && RequestOf(c) == Play
    ensures Walk(p, Opening(EncodeControl(c)) + [Obey(0, c)]) && p[0] == o && p[4] == Vibrating(o, c)
  {
    var h, g := Parsed(o, EncodeControl(c)), Vibrating(o, c);
    assert Rumbled(h, g, 0, c, o.clock);
    p := Obeying(o, c, g);
  }

  function Vibrating(o: Hub, c: Control): Hub { UpdateRumble(Asked(Parsed(o, EncodeControl(c)), c), true, o.clock) }

  lemma VibratingState(o: Hub, c: Control)
    requires Initial(o)
    ensures var g := Vibrating(o, c);
      && g.clock == o.clock && g.deviceId == 5 && g.slots[0].open && g.slots[0].kind == Uninitialized
      && g.slots[0].low == c.low && g.slots[0].high == c.high && g.slots[0].expires == o.clock + RumbleMs(c) > 0
      && (forall i :: 1 <= i < 16 ==> !g.slots[i].open)
  {
    assert RumbleMs(c) > 0;
  }

  /** A reachable state in which a client that plays nothing has an expiry. */
  lemma ZeroRumbleExpires(o: Hub, c: Control) returns (p: seq<Hub>)
    requires Initial(o) && GoodHeader(c) && RequestOf(c) == Play && c.low == 0 && c.high == 0
    ensures Walk(p, Opening(EncodeControl(c)) + [Obey(0, c)]) && p[0] == o
    ensures var s := p[4].slots[0]; s.open && !Playing(s) && s.expires > 0
  {
    p := Rumbling(o, c);
    VibratingState(o, c);
  }

  function Swapped(o: Hub, c: Control): Hub { Added(Removed(Vibrating(o, c)), SECOND) }

  lemma SwappedState(o: Hub, c: Control)
    requires Initial(o) && c.low > 0
    ensures var h := Swapped(o, c);
      && Capable(h) && h.motor == Silent && h.clock == o.clock && Playing(h.slots[0]) && h.slots[0].expires > h.clock
      && h.activeLow == c.low && h.activeHigh == c.high && PeakOf(h.slots).low == c.low && PeakOf(h.slots).high == c.high
      && LapseAll(h.slots, h.clock) == h.slots
  {
    VibratingState(o, c);
    PeakSinglePlayer(Vibrating(o, c).slots);
  }

  /**
   * A run that ends with a motor at rest against the requests: the second device comes while the
   * first one vibrates, and the peak the update after the swap finds is the one on record.
   */
  lemma SwapLosesRumble(o: Hub, c: Control) returns (p: seq<Hub>)
    requires Initial(o) && GoodHeader(c) && RequestOf(c) == Play && c.low > 0
    ensures Walk(p, Opening(EncodeControl(c)) + [Obey(0, c)] + [Refresh(SECOND)] + [Update(false)]) && p[0] == o
    ensures var g := p[6]; Capable(g) && Playing(g.slots[0]) && g.motor == Silent && !Steady(g)
  {
    p := Rumbling(o, c);
    var ss, h, k := Opening(EncodeControl(c)) + [Obey(0, c)], Vibrating(o, c), Swapped(o, c);
    VibratingState(o, c);
    SwappedState(o, c);
    SwapStep(h, SECOND);
    WalkMore(p, ss, Refresh(SECOND), k);
    WalkMore(p + [k], ss + [Refresh(SECOND)], Update(false), UpdateRumble(k, false, k.clock));
    p := p + [k] + [UpdateRumble(k, false, k.clock)];
  }

  // ------------------------------------------------------------------ the reader

  lemma {:induction false} RecordBytes(fs: seq<seq<byte>>)
    requires forall f :: f in fs ==> |f| == EVENT_SIZE
    ensures |Join(fs)| == EVENT_SIZE * |fs|
  {
    if fs != [] {
      RecordBytes(fs[1..]);
    }
  }

  /** A packet is short enough for an empty buffer. */
  lemma PacketFits(p: Pad, q: Pad, s: Slot)
    requires s.sent == |LogBytes(s.log)|
    ensures Fits(s, Wrap(Events(Stamped(Packet(p, q)))))
  {
    RecordBytes(Frames(Stamped(Packet(p, q))));
  }

  /** A slot that has been told all there is to tell. */
  ghost predicate UpToDate(s: Slot) { s.sent == |LogBytes(s.log)| && Reading(s) }

  const PRESS: XiEvent := Button(1, true)

  function Down(p: Pad): Pad { p.(buttons := p.buttons[0 := true]) }

  lemma DownIs(p: Pad)
    requires p == ZERO_PAD
    ensures NextPad(p, PRESS) == Down(p)
    ensures Wire(p)[8] == 0 && Wire(Down(p))[8] == 1
  {}

  lemma SomethingToSend(p: Pad, q: Pad, c: nat)
    requires c < 20 && Wire(p)[c] != Wire(q)[c]
    ensures Packet(p, q) != []
  {
    if Packet(p, q) == [] {
      NothingToSend(p, q);
    }
  }

  /** The first button goes down, and the client is told. */
  lemma PressStep(h: Hub) returns (t: Slot)
    requires h.pad == ZERO_PAD && h.deviceId == 5 && UpToDate(h.slots[0]) && forall i :: 1 <= i < 16 ==> !h.slots[i].open
    ensures Next(h, Xi(5, 5, PRESS), WithSlot(h, 0, t).(pad := Down(h.pad)))
    ensures UpToDate(t) && t.epoch == h.slots[0].epoch
  {
    var k, packet := h.(pad := Down(h.pad)), Stamped(Packet(h.pad, Down(h.pad)));
    var s, m := h.slots[0], Wrap(Events(packet));
    DownIs(h.pad);
    SomethingToSend(h.pad, Down(h.pad), 8);
    PacketFits(h.pad, Down(h.pad), s);
    LogBytesPush(s.log, m);
    t := s.(log := s.log + [m], sent := |LogBytes(s.log + [m])|);
    PressDelivered(k, t, m);
    assert XiProcessed(h, WithSlot(h, 0, t).(pad := Down(h.pad)), 5, 5, PRESS, packet);
  }

  lemma PressDelivered(k: Hub, t: Slot, m: Msg)
    requires UpToDate(k.slots[0]) && Fits(k.slots[0], m) && forall i :: 1 <= i < 16 ==> !k.slots[i].open
    requires t == k.slots[0].(log := k.slots[0].log + [m], sent := t.sent) && k.slots[0].sent <= t.sent && WellSent(t)
    ensures Broadcasted(k, WithSlot(k, 0, t), EventClient, m)
  {
    var g := WithSlot(k, 0, t);
    QueueEffect(k, g, 0);
    assert Delivered(k.slots[0], t, m);
  }

  /** The client asks, and is told. */
  lemma Asking(o: Hub) returns (p: seq<Hub>)
    requires Initial(o)
    ensures Walk(p, Opening(EncodeControl(QUERY)) + [Obey(0, QUERY)]) && p[0] == o
    ensures var h := p[4];
      && h.pad == ZERO_PAD && h.deviceId == 5 && h.epoch == 0 && UpToDate(h.slots[0]) && h.slots[0].epoch == 0
      && forall i :: 1 <= i < 16 ==> !h.slots[i].open
  {
    var h := Parsed(o, EncodeControl(QUERY));
    var t := QueryAtOnce(h, 0);
    p := Obeying(o, QUERY, WithSlot(h, 0, t));
  }

  lemma NobodyElse(h: Hub)
    requires Reading(h.slots[0]) && forall i :: 1 <= i < 16 ==> !h.slots[i].open
    ensures NoMonitors(h)
  {}

  /**
   * A run that leaves a reader behind: a button is held while the device goes away. The reader
   * has been told everything and still holds the button, which for the bridge is up.
   */
  lemma RemovalStrandsReader(o: Hub) returns (p: seq<Hub>)
    requires Initial(o)
    ensures Walk(p, Opening(EncodeControl(QUERY)) + [Obey(0, QUERY)] + [Xi(5, 5, PRESS)] + [Refresh(Nothing)]) && p[0] == o
    ensures var g := p[6]; UpToDate(g.slots[0]) && Belief(g.slots[0])[8] == 1 && Wire(g.pad)[8] == 0
  {
    p := Asking(o);
    var ss, h := Opening(EncodeControl(QUERY)) + [Obey(0, QUERY)], p[4];
    var t := PressStep(h);
    var k := WithSlot(h, 0, t).(pad := Down(h.pad));
    WalkMore(p, ss, Xi(5, 5, PRESS), k);
    p, ss := p + [k], ss + [Xi(5, 5, PRESS)];
    Stranded(o, p, ss, k);
    NobodyElse(k);
    RemoveStep(k);
    WalkMore(p, ss, Refresh(Nothing), Removed(k));
    DownIs(h.pad);
    p := p + [Removed(k)];
  }

  lemma Stranded(o: Hub, p: seq<Hub>, ss: seq<Step>, k: Hub)
    requires Initial(o) && Walk(p, ss) && p[0] == o && p[|ss|] == k && k.deviceId >= 0
    requires Reading(k.slots[0]) && k.slots[0].epoch == k.epoch && forall i :: 1 <= i < 16 ==> !k.slots[i].open
    ensures Belief(Removed(k).slots[0]) == Wire(k.pad)
  {
    WalkReaches(p, ss);
    NobodyElse(k);
    RemoveStep(k);
    assert Next(k, Refresh(Nothing), Removed(k));
    AgreesAfterRemoval(o, k, Removed(k), 0);
  }
}
