/**
 * The bridge as a value: its 16 client slots, the controller state, the selected device and the
 * motor. The classes of Bridge.dfy are proved against the functions and relations given here.
 */
module HubModel {
  import opened Bytes
  import opened Protocol
  import opened Controller

  const MAX_CLIENTS := 16
  const CLIENT_BUFFER_SIZE := 16384
  const DEFAULT_RUMBLE_MS := 2500

  datatype Kind = Uninitialized | EventClient | MonitorClient

  /**
   * One client. log holds the whole messages queued since connect and sent counts how many of
   * their bytes the socket has accepted. heard is what was received since connect, ran the 16-byte
   * commands taken off its front, left what is still unparsed. All but left outlive the close as
   * history. greetings counts the QUERY and MONITOR commands obeyed, epoch is the device epoch at
   * the last of them.
   */
  datatype Slot = Slot(
    open: bool, kind: Kind, log: seq<Msg>, sent: nat, greetings: nat, epoch: nat,
    low: u16, high: u16, expires: nat,
    heard: seq<byte>, left: seq<byte>, ran: seq<seq<byte>>)

  const FRESH_SLOT := Slot(true, Uninitialized, [], 0, 0, 0, 0, 0, 0, [], [], [])

  /** The last command the motor obeyed; a running motor stops by itself at its deadline. */
  datatype Motor = Silent | Buzz(low: u16, high: u16, deadline: int)

  type Slots = s: seq<Slot> | |s| == 16 witness seq(16, _ => FRESH_SLOT)

  datatype Hub = Hub(
    slots: Slots, pad: Pad, deviceId: s32, capabilities: u16, descriptor: DeviceDescriptor,
    activeLow: u16, activeHigh: u16, motor: Motor, clock: nat, epoch: nat)

  const FREE_SLOT := FRESH_SLOT.(open := false)

  /** Nobody connected, no device. */
  predicate Initial(h: Hub) {
    && (forall i :: 0 <= i < 16 ==> h.slots[i] == FREE_SLOT)
    && h.pad == ZERO_PAD && h.deviceId == -1 && h.capabilities == 0 && h.descriptor == NO_DEVICE
    && h.activeLow == 0 && h.activeHigh == 0 && h.motor == Silent && h.epoch == 0
  }

  // --------------------------------------------------------------------- rumble

  predicate Playing(s: Slot) { s.open && (s.low != 0 || s.high != 0) }

  function Lapse(s: Slot, now: nat): Slot {
    if Playing(s) && s.expires <= now then s.(low := 0, high := 0, expires := 0) else s
  }

  function LapseAll(slots: seq<Slot>, now: nat): (r: seq<Slot>)
    ensures |r| == |slots| && forall i :: 0 <= i < |r| ==> r[i] == Lapse(slots[i], now)
  {
    seq(|slots|, i requires 0 <= i < |slots| => Lapse(slots[i], now))
  }

  /** The strongest request on each motor and the last moment any request lasts to. */
  datatype Peak = Peak(low: u16, high: u16, until: nat)

  function Max(a: nat, b: nat): nat { if a > b then a else b }

  function PeakOf(slots: seq<Slot>): Peak {
    if slots == [] then Peak(0, 0, 0)
    else
      var p, s := PeakOf(slots[..|slots| - 1]), slots[|slots| - 1];
      if Playing(s) then Peak(Max(p.low, s.low), Max(p.high, s.high), Max(p.until, s.expires)) else p
  }

  function Remaining(p: Peak, now: nat): nat { if p.until > now then p.until - now else 0 }

  /** One more client in the loop that looks for the maximum. */
  lemma PeakStep(slots: seq<Slot>, i: nat, now: nat)
    requires i < |slots|
    ensures var p, s, q := PeakOf(slots[..i]), slots[i], PeakOf(slots[..i + 1]);
      && (!Playing(s) ==> q == p)
      && (Playing(s) ==> q.low == Max(p.low, s.low) && q.high == Max(p.high, s.high))
      && (Playing(s) && s.expires > now ==> Remaining(q, now) == Max(Remaining(p, now), s.expires - now))
  {
    assert slots[..i + 1][..i] == slots[..i];
  }

  /** What the motor should be doing for these requests. */
  function Wanted(slots: seq<Slot>): Motor {
    var p := PeakOf(slots);
    if p.low == 0 && p.high == 0 then Silent else Buzz(p.low, p.high, p.until)
  }

  predicate Capable(h: Hub) { h.deviceId >= 0 && h.capabilities % 2 == 1 }

  function Duration(longest: int): (d: u32)
    requires longest >= 0
  {
    var d := if longest > U32_MAX then U32_MAX else longest;
    if d == 0 then 1 else d
  }

  /**
   * What an update leaves the motor doing, given its record of the last peak and the peak of the
   * requests that have not lapsed. A command reaches the motor only when the device is capable.
   */
  function Told(motor: Motor, capable: bool, activeLow: u16, activeHigh: u16,
                force: bool, now: nat, low: u16, high: u16, longest: nat): Motor {
    var sends := if low == 0 && high == 0 then activeLow != 0 || activeHigh != 0
                 else force || low != activeLow || high != activeHigh;
    if !sends || !capable then motor
    else if low == 0 && high == 0 then Silent
    else Buzz(low, high, now + Duration(longest))
  }

  /** The two requests of the X server's controller extension that the bridge makes. */
  datatype LorieRequest =
    | StopMotor(device: u16)
    | RunMotor(device: u16, effect: byte, low: u16, high: u16, duration: u32)

  const LORIE_CONTROLLER_EFFECT_MAIN: byte := 0

  datatype Sending = Unsent | Sent(request: LorieRequest)

  /** A motor that obeys whatever is sent. */
  function MotorAfter(motor: Motor, sending: Sending, now: nat): Motor {
    match sending
    case Unsent => motor
    case Sent(StopMotor(_)) => Silent
    case Sent(RunMotor(_, _, low, high, duration)) => Buzz(low, high, now + duration)
  }

  function UpdateRumble(h: Hub, force: bool, now: nat): Hub {
    var slots := LapseAll(h.slots, now);
    var p := PeakOf(slots);
    h.(slots := slots,
       motor := Told(h.motor, Capable(h), h.activeLow, h.activeHigh, force, now, p.low, p.high, Remaining(p, now)),
       activeLow := p.low, activeHigh := p.high, clock := now)
  }

  /** Requests were made no later than the clock and last at most 2^32 - 1 ms. */
  ghost predicate Bounded(h: Hub) {
    forall i :: 0 <= i < 16 && Playing(h.slots[i]) ==> h.slots[i].expires <= h.clock + U32_MAX
  }

  /** The motor does what the requests ask for, and the bridge's record of it is right. */
  ghost predicate Steady(h: Hub) {
    && h.motor == Wanted(h.slots)
    && h.activeLow == PeakOf(h.slots).low
    && h.activeHigh == PeakOf(h.slots).high
  }

  /** PeakOf is the componentwise maximum over the requests being played, and it is attained. */
  lemma {:induction false} PeakIsMaximum(slots: seq<Slot>)
    ensures var p := PeakOf(slots);
      && (forall i :: 0 <= i < |slots| && Playing(slots[i]) ==>
            slots[i].low <= p.low && slots[i].high <= p.high && slots[i].expires <= p.until)
      && (p.low == 0 || exists i :: 0 <= i < |slots| && Playing(slots[i]) && slots[i].low == p.low)
      && (p.high == 0 || exists i :: 0 <= i < |slots| && Playing(slots[i]) && slots[i].high == p.high)
      && (p.until == 0 || exists i :: 0 <= i < |slots| && Playing(slots[i]) && slots[i].expires == p.until)
  {
    if slots != [] {
      var front := slots[..|slots| - 1];
      PeakIsMaximum(front);
      assert forall i :: 0 <= i < |front| ==> front[i] == slots[i];
      var p, s := PeakOf(front), slots[|slots| - 1];
      assert slots[|slots| - 1] == s;
    }
  }

  /** Letting requests lapse either leaves the last deadline alone or ends everything. */
  lemma {:induction false} LapsePeak(slots: seq<Slot>, now: nat)
    ensures var p, q := PeakOf(slots), PeakOf(LapseAll(slots, now));
      && q.until == (if p.until > now then p.until else 0)
      && (p.until <= now ==> q == Peak(0, 0, 0))
  {
    if slots != [] {
      var front := slots[..|slots| - 1];
      LapsePeak(front, now);
      assert LapseAll(slots, now)[..|slots| - 1] == LapseAll(front, now);
    }
  }

  lemma {:induction false} SilentPeak(slots: seq<Slot>)
    ensures PeakOf(slots).low == 0 && PeakOf(slots).high == 0 ==> PeakOf(slots).until == 0
  {
    if slots != [] {
      SilentPeak(slots[..|slots| - 1]);
    }
  }

  lemma LapsedBounds(h: Hub, now: nat)
    requires Bounded(h) && h.clock <= now
    ensures var p := PeakOf(LapseAll(h.slots, now));
      p.low != 0 || p.high != 0 ==> 1 <= p.until - now <= U32_MAX
  {
    var slots := LapseAll(h.slots, now);
    LapsePeak(h.slots, now);
    PeakIsMaximum(slots);
  }

  /** Neither the 32-bit clamp nor the floor of one millisecond ever changes a duration. */
  lemma DurationExact(h: Hub, now: nat)
    requires Bounded(h) && h.clock <= now
    ensures var p := PeakOf(LapseAll(h.slots, now));
      p.low != 0 || p.high != 0 ==> p.until > now && now + Duration(Remaining(p, now)) == p.until
  {
    LapsedBounds(h, now);
  }

  /**
   * The motor refinement. A forced update, or any update from a steady state, leaves the motor with
   * exactly the peak of the live unexpired requests, although an unforced update whose peak did not
   * move sends nothing.
   */
  lemma UpdateSteadies(h: Hub, force: bool, now: nat)
    requires Capable(h) && Bounded(h) && h.clock <= now
    requires Consistent(h) && (force || Steady(h))
    ensures var g := UpdateRumble(h, force, now);
      && Steady(g) && Bounded(g) && Capable(g)
      && (forall i :: 0 <= i < 16 && Playing(g.slots[i]) ==> now < g.slots[i].expires)
  {
    DurationExact(h, now);
    LapsePeak(h.slots, now);
    SilentPeak(h.slots);
  }

  /** A motor that is recorded as resting rests. */
  ghost predicate Consistent(h: Hub) { h.activeLow == 0 && h.activeHigh == 0 ==> h.motor.Silent? }

  /**
   * A device that has just been selected is not vibrating. An update makes its motor right if and
   * only if it is forced, finds nothing to play, or finds a peak other than the one recorded.
   */
  lemma UpdateAfterSwap(h: Hub, force: bool, now: nat)
    requires Capable(h) && Bounded(h) && h.clock <= now && h.motor.Silent?
    ensures var p := PeakOf(LapseAll(h.slots, now));
      Steady(UpdateRumble(h, force, now)) <==>
        force || (p.low == 0 && p.high == 0) || p.low != h.activeLow || p.high != h.activeHigh
  {
    DurationExact(h, now);
  }

  lemma {:induction false} PeakSinglePlayer(slots: seq<Slot>)
    requires forall i :: 0 < i < |slots| ==> !Playing(slots[i])
    ensures |slots| > 0 && Playing(slots[0]) ==> PeakOf(slots).low == slots[0].low && PeakOf(slots).high == slots[0].high
  {
    if |slots| > 1 {
      PeakSinglePlayer(slots[..|slots| - 1]);
    } else if |slots| == 1 {
      assert slots[..0] == [];
    }
  }

  /** Only the requests matter for the peak. */
  lemma {:induction false} PeakCongruence(a: seq<Slot>, b: seq<Slot>)
    requires |a| == |b|
    requires forall i :: 0 <= i < |a| ==> SameRequest(a[i], b[i])
    ensures PeakOf(a) == PeakOf(b)
  {
    if a != [] {
      PeakCongruence(a[..|a| - 1], b[..|b| - 1]);
    }
  }

  predicate SameRequest(s: Slot, t: Slot) {
    Playing(s) == Playing(t) && (Playing(s) ==> s.low == t.low && s.high == t.high && s.expires == t.expires)
  }

  // --------------------------------------------------------------------- queues

  /** Two slots that differ in nothing but a rumble request. */
  predicate Quiet(s: Slot, t: Slot) {
    t == s.(low := t.low, high := t.high, expires := t.expires)
  }

  predicate Fits(s: Slot, m: Msg) {
    |LogBytes(s.log)| - s.sent + |m.bytes| <= CLIENT_BUFFER_SIZE
  }

  predicate WellSent(s: Slot) { s.sent <= |LogBytes(s.log)| }

  /** m was queued whole, and some of the backlog accepted by the socket. */
  predicate Enqueues(s: Slot, t: Slot, m: Msg) {
    Fits(s, m) && t == s.(log := s.log + [m], sent := t.sent) && s.sent <= t.sent && WellSent(t)
  }

  /** Some of the backlog of client i was accepted by the socket. */
  predicate Flushed(h: Hub, g: Hub, i: nat)
    requires i < 16
  {
    var s, t := h.slots[i], g.slots[i];
    g == WithSlot(h, i, t) && t == s.(sent := t.sent) && s.sent <= t.sent && WellSent(t)
  }

  /** The outcome of queueing m: refused untouched, or queued, in which case the socket may still have failed. */
  predicate Queued(s: Slot, t: Slot, m: Msg, ok: bool) {
    if Fits(s, m) then Enqueues(s, t, m) else !ok && t == s
  }

  function Closed(s: Slot): Slot {
    s.(open := false, kind := Uninitialized, low := 0, high := 0, expires := 0, left := [])
  }

  function WithSlot(h: Hub, i: nat, s: Slot): Hub
    requires i < 16
  {
    h.(slots := h.slots[i := s])
  }

  function CloseClient(h: Hub, i: nat, now: nat): Hub
    requires i < 16
  {
    if h.slots[i].low != 0 || h.slots[i].high != 0 then UpdateRumble(WithSlot(h, i, Closed(h.slots[i])), true, now)
    else WithSlot(h, i, Closed(h.slots[i]))
  }

  /** g differs from h in the slots and in the rumble arbitration only. */
  predicate SameDevice(h: Hub, g: Hub) {
    g == h.(slots := g.slots, activeLow := g.activeLow, activeHigh := g.activeHigh, motor := g.motor, clock := g.clock)
  }

  /** No request changes and nothing reaches the motor; clients may be closed, but none is opened. */
  ghost predicate Undisturbed(h: Hub, g: Hub) {
    && SameDevice(h, g) && g.motor == h.motor && g.clock == h.clock
    && g.activeLow == h.activeLow && g.activeHigh == h.activeHigh
    && forall i :: 0 <= i < 16 ==> SameRequest(h.slots[i], g.slots[i]) && (g.slots[i].open ==> h.slots[i].open)
  }

  /** A client whose request is being played is closed, which forces an arbitration. */
  ghost predicate Bereaved(h: Hub, g: Hub) {
    exists i: nat :: i < 16 && Playing(h.slots[i]) && h.clock <= g.clock && g == CloseClient(h, i, g.clock)
  }

  ghost predicate Arbitrated(t: seq<Hub>, h: Hub, g: Hub) {
    && |t| > 0 && t[0] == h && t[|t| - 1] == g
    && forall n :: 0 <= n < |t| - 1 ==> Undisturbed(t[n], t[n + 1]) || Bereaved(t[n], t[n + 1])
  }

  /** All that queueing messages can do to the motor: some forced arbitrations, one for each such client lost. */
  ghost predicate RumbleEffect(h: Hub, g: Hub) { exists t :: Arbitrated(t, h, g) }

  lemma EffectNone(h: Hub)
    ensures RumbleEffect(h, h)
  {
    assert Arbitrated([h], h, h);
  }

  lemma EffectOne(h: Hub, g: Hub)
    requires Undisturbed(h, g) || Bereaved(h, g)
    ensures RumbleEffect(h, g)
  {
    assert Arbitrated([h, g], h, g);
  }

  lemma ArbitratedMore(t: seq<Hub>, h: Hub, g: Hub, u: seq<Hub>, k: Hub)
    requires Arbitrated(t, h, g) && Arbitrated(u, g, k)
    ensures Arbitrated(t + u[1..], h, k)
  {
    var r := t + u[1..];
    forall n | 0 <= n < |r| - 1 ensures Undisturbed(r[n], r[n + 1]) || Bereaved(r[n], r[n + 1]) {
      if n < |t| - 1 {
        assert r[n] == t[n] && r[n + 1] == t[n + 1];
      } else {
        assert r[n] == u[n - |t| + 1] && r[n + 1] == u[n - |t| + 2];
      }
    }
  }

  lemma EffectTransitive(h: Hub, g: Hub, k: Hub)
    requires RumbleEffect(h, g) && RumbleEffect(g, k)
    ensures RumbleEffect(h, k)
  {
    var t :| Arbitrated(t, h, g);
    var u :| Arbitrated(u, g, k);
    ArbitratedMore(t, h, g, u, k);
  }

  /** Beyond slot i nothing happens to any queue. */
  ghost predicate Others(h: Hub, g: Hub, i: nat) {
    && SameDevice(h, g)
    && forall j :: 0 <= j < 16 && j != i ==> Quiet(h.slots[j], g.slots[j])
  }

  ghost predicate Elsewhere(h: Hub, g: Hub, i: nat) { Others(h, g, i) && RumbleEffect(h, g) }

  /** What a broadcast does to a client of the right kind: one whole message more, or closed. */
  predicate Delivered(s: Slot, t: Slot, m: Msg) {
    && WellSent(t) && s.sent <= t.sent
    && if t.open then Fits(s, m) && Quiet(s.(log := s.log + [m], sent := t.sent), t)
       else Quiet(Closed(s.(log := t.log, sent := t.sent)), t) && (t.log == s.log + [m] || t.log == s.log)
  }

  ghost predicate Broadcasted(h: Hub, g: Hub, kind: Kind, m: Msg) {
    && SameDevice(h, g)
    && RumbleEffect(h, g)
    && forall i :: 0 <= i < 16 ==>
         if h.slots[i].open && h.slots[i].kind == kind then Delivered(h.slots[i], g.slots[i], m)
         else Quiet(h.slots[i], g.slots[i])
  }

  lemma LapseQuiet(h: Hub, force: bool, now: nat)
    ensures var g := UpdateRumble(h, force, now);
      SameDevice(h, g) && forall j :: 0 <= j < 16 ==> Quiet(h.slots[j], g.slots[j]) && g.slots[j].open == h.slots[j].open
  {}

  lemma CloseOthers(h: Hub, i: nat, now: nat)
    requires i < 16
    ensures Others(h, CloseClient(h, i, now), i)
    ensures Quiet(Closed(h.slots[i]), CloseClient(h, i, now).slots[i])
    ensures CloseClient(h, i, now).clock in {h.clock, now}
  {
    LapseQuiet(WithSlot(h, i, Closed(h.slots[i])), true, now);
  }

  /** Closing an open client leaves the other queues alone, and arbitrates if it was vibrating. */
  lemma CloseElsewhere(h: Hub, i: nat, now: nat)
    requires i < 16 && h.clock <= now && h.slots[i].open
    ensures Elsewhere(h, CloseClient(h, i, now), i)
    ensures Quiet(Closed(h.slots[i]), CloseClient(h, i, now).slots[i])
  {
    CloseOthers(h, i, now);
    EffectOne(h, CloseClient(h, i, now));
  }

  /** A change of one queue disturbs nothing. */
  lemma QueueEffect(h: Hub, g: Hub, i: nat)
    requires i < 16 && g == WithSlot(h, i, g.slots[i])
    requires SameRequest(h.slots[i], g.slots[i]) && g.slots[i].open == h.slots[i].open
    ensures Elsewhere(h, g, i)
  {
    EffectOne(h, g);
  }

  /** The next client a broadcast loop reaches: the message was queued, ... */
  lemma DeliveredByQueue(h: Hub, g: Hub, i: nat, m: Msg)
    requires i < 16 && h.slots[i].open
    requires g == WithSlot(h, i, g.slots[i]) && Enqueues(h.slots[i], g.slots[i], m)
    ensures Elsewhere(h, g, i) && Delivered(h.slots[i], g.slots[i], m)
  {
    QueueEffect(h, g, i);
  }

  /** ... or queueing failed, before or after the message was in the buffer, and the client is closed. */
  lemma DeliveredByClose(h: Hub, g: Hub, i: nat, m: Msg, now: nat)
    requires i < 16 && h.slots[i].open && WellSent(h.slots[i]) && h.clock <= now
    requires g == WithSlot(h, i, g.slots[i]) && Queued(h.slots[i], g.slots[i], m, false)
    ensures Elsewhere(h, CloseClient(g, i, now), i)
    ensures Delivered(h.slots[i], CloseClient(g, i, now).slots[i], m)
  {
    QueueEffect(h, g, i);
    CloseElsewhere(g, i, now);
    EffectTransitive(h, g, CloseClient(g, i, now));
  }

  lemma DeliveredOne(h: Hub, g: Hub, k: Hub, i: nat, m: Msg, ok: bool, now: nat)
    requires i < 16 && h.slots[i].open && WellSent(h.slots[i]) && h.clock <= now
    requires g == WithSlot(h, i, g.slots[i]) && Queued(h.slots[i], g.slots[i], m, ok)
    requires k == if ok then g else CloseClient(g, i, now)
    ensures Elsewhere(h, k, i) && Delivered(h.slots[i], k.slots[i], m)
  {
    if ok {
      DeliveredByQueue(h, g, i, m);
    } else {
      DeliveredByClose(h, g, i, m, now);
    }
  }

  /** A broadcast that has reached the clients below n. */
  ghost predicate BroadcastUpTo(h: Hub, g: Hub, kind: Kind, m: Msg, n: nat) {
    && SameDevice(h, g)
    && RumbleEffect(h, g)
    && forall i :: 0 <= i < 16 ==>
         if i < n && h.slots[i].open && h.slots[i].kind == kind then Delivered(h.slots[i], g.slots[i], m)
         else Quiet(h.slots[i], g.slots[i])
  }

  lemma BroadcastAdvance(h: Hub, g: Hub, k: Hub, kind: Kind, m: Msg, n: nat)
    requires n < 16 && BroadcastUpTo(h, g, kind, m, n)
    requires if g.slots[n].open && g.slots[n].kind == kind
             then Elsewhere(g, k, n) && Delivered(g.slots[n], k.slots[n], m) else k == g
    ensures BroadcastUpTo(h, k, kind, m, n + 1)
  {
    EffectNone(g);
    EffectTransitive(h, g, k);
  }

  // -------------------------------------------------------------------- devices

  function Zeros(n: nat): (s: seq<byte>)
    ensures |s| == n && forall i :: 0 <= i < n ==> s[i] == 0
  {
    seq(n, _ => 0)
  }

  const NO_DEVICE := DeviceDescriptor(DEVICE_MAGIC, CONTROL_VERSION, 0, 0, 0, 0, 0, -1, Zeros(64))

  type CString = s: seq<byte> | |s| <= 63 && 0 !in s witness []

  function Stored(name: CString): Name { name + Zeros(64 - |name|) }

  /** What the X server answers when asked for a gamepad; selectable is XISelectEvents succeeding. */
  datatype Probe =
    | Nothing
    | Found(deviceId: nat, capabilities: u16, inputMode: byte, vendorId: u32, productId: u32,
            name: CString, selectable: bool)

  predicate GoodProbe(a: Probe) { a.Found? ==> a.deviceId < 0x1_0000 }

  predicate Unchanged(h: Hub, a: Probe) {
    && a.Found?
    && h.deviceId == a.deviceId && h.capabilities == a.capabilities
    && h.descriptor.inputMode == a.inputMode
    && h.descriptor.vendorId == a.vendorId && h.descriptor.productId == a.productId
    && h.descriptor.name == Stored(a.name)
  }

  function Removed(h: Hub): Hub {
    h.(deviceId := -1, capabilities := 0, pad := ZERO_PAD, epoch := h.epoch + 1,
       descriptor := h.descriptor.(present := 0, deviceId := -1))
  }

  /** The newly selected device starts with a silent motor. */
  function Added(h: Hub, a: Probe): Hub
    requires a.Found? && GoodProbe(a)
  {
    h.(deviceId := a.deviceId, capabilities := a.capabilities, motor := Silent,
       descriptor := DeviceDescriptor(
         DEVICE_MAGIC, CONTROL_VERSION, 1, if a.capabilities % 2 == 1 then DEVICE_CAP_RUMBLE else 0,
         a.inputMode, a.vendorId, a.productId, a.deviceId, Stored(a.name)))
  }

  function Announcement(h: Hub, action: byte): Msg {
    Wrap(Announce(Hotplug(HOTPLUG_MAGIC, CONTROL_VERSION, action, h.descriptor)))
  }

  /** A refresh, with mid the state between a removal and an addition. */
  ghost predicate Refreshed(h: Hub, mid: Hub, g: Hub, a: Probe)
    requires GoodProbe(a)
  {
    if h.deviceId >= 0 && Unchanged(h, a) then mid == h && g == h
    else
      && (if h.deviceId >= 0 then
            Broadcasted(Removed(h), mid, MonitorClient, Announcement(Removed(h), HOTPLUG_REMOVE))
          else mid == h)
      && (if a.Found? && a.selectable then
            Broadcasted(Added(mid, a), g, MonitorClient, Announcement(Added(mid, a), HOTPLUG_ADD))
          else g == mid)
  }

  // ------------------------------------------------------------------- commands

  predicate GoodHeader(c: Control) { c.magic == CONTROL_MAGIC && c.version == CONTROL_VERSION }

  function Greeted(h: Hub, i: nat, kind: Kind): Slot
    requires i < 16
  {
    h.slots[i].(kind := kind, greetings := h.slots[i].greetings + 1, epoch := h.epoch)
  }

  function RumbleMs(c: Control): nat { if c.duration != 0 then c.duration else DEFAULT_RUMBLE_MS }

  /** A RUMBLE whose expiry was computed at t; magnitudes of zero are stored like any others. */
  ghost predicate Rumbled(h: Hub, g: Hub, i: nat, c: Control, t: nat)
    requires i < 16
  {
    && h.clock <= t <= g.clock
    && g == UpdateRumble(WithSlot(h, i, h.slots[i].(low := c.low, high := c.high, expires := t + RumbleMs(c))).(clock := t),
                         true, g.clock)
  }

  lemma RumbledIs(h: Hub, k: Hub, g: Hub, i: nat, c: Control, t: nat)
    requires i < 16 && h.clock <= t <= g.clock
    requires k == WithSlot(h, i, h.slots[i].(low := c.low, high := c.high, expires := t + RumbleMs(c))).(clock := t)
    requires g == UpdateRumble(k, true, g.clock)
    ensures Rumbled(h, g, i, c, t)
  {}

  ghost predicate Stopped(h: Hub, g: Hub, i: nat)
    requires i < 16
  {
    && h.clock <= g.clock
    && g == UpdateRumble(WithSlot(h, i, h.slots[i].(low := 0, high := 0, expires := 0)), true, g.clock)
  }

  /** es is the snapshot of p; only a mention of AllCells brings in its twenty events. */
  ghost predicate IsSnapshot(es: seq<Event>, p: Pad) {
    forall n: nat {:trigger AllCells(Wire(p), n)} :: n == 20 ==> es == AllCells(Wire(p), n) + [SYN]
  }

  lemma SnapshotIs(es: seq<Event>, p: Pad)
    ensures IsSnapshot(es, p) <==> es == Snapshot(p)
  {
    assert Snapshot(p) == AllCells(Wire(p), 20) + [SYN];
  }

  ghost predicate SnapshotMsg(m: Msg, p: Pad) {
    m.body.Events? && Faithful(m) && IsSnapshot(Bodies(m.body.records), p)
  }

  /** The descriptor alone without a device, the descriptor and a whole snapshot with one. */
  ghost predicate QueryAnswered(h: Hub, g: Hub, i: nat, ok: bool)
    requires i < 16
  {
    match (ok, h.descriptor.present != 0)
    case (false, _) => Elsewhere(h, g, i) && DescriptorRefused(Greeted(h, i, EventClient), g.slots[i], DescriptorMsg(h))
    case (true, false) => Elsewhere(h, g, i) && Enqueues(Greeted(h, i, EventClient), g.slots[i], DescriptorMsg(h))
    case (true, true) => Elsewhere(h, g, i) && SnapshotSent(Greeted(h, i, EventClient), g.slots[i], DescriptorMsg(h), h.pad)
  }

  function DescriptorMsg(h: Hub): Msg { Wrap(Descriptor(h.descriptor)) }

  /** The socket failed, with the descriptor queued or not. */
  ghost predicate DescriptorRefused(s: Slot, t: Slot, d: Msg) {
    && s.sent <= t.sent && WellSent(t)
    && t == s.(log := t.log, sent := t.sent) && (t.log == s.log || t.log == s.log + [d])
  }

  /** Descriptor and snapshot are queued, or the client is closed behind the descriptor. */
  ghost predicate SnapshotSent(s: Slot, t: Slot, d: Msg, p: Pad) {
    && s.sent <= t.sent && WellSent(t)
    && if t.open then
         && Quiet(s.(log := t.log, sent := t.sent), t)
         && |t.log| == |s.log| + 2
         && t.log[..|s.log| + 1] == s.log + [d]
         && SnapshotMsg(t.log[|s.log| + 1], p)
       else
         && Quiet(Closed(s.(log := t.log, sent := t.sent)), t)
         && (t.log == s.log + [d] ||
             (|t.log| == |s.log| + 2 && t.log[..|s.log| + 1] == s.log + [d] && SnapshotMsg(t.log[|s.log| + 1], p)))
  }

  function CurrentAction(h: Hub): byte { if h.descriptor.present != 0 then HOTPLUG_ADD else HOTPLUG_REMOVE }

  ghost predicate MonitorAnswered(h: Hub, g: Hub, i: nat, ok: bool)
    requires i < 16
  {
    && Elsewhere(h, g, i)
    && Queued(Greeted(h, i, MonitorClient), g.slots[i], Announcement(h, CurrentAction(h)), ok)
  }

  datatype Request = Play | Stop | Query | Monitor | Unknown

  function RequestOf(c: Control): Request {
    if c.command == CONTROL_RUMBLE then Play
    else if c.command == CONTROL_STOP_RUMBLE then Stop
    else if c.command == CONTROL_QUERY_DESCRIPTOR then Query
    else if c.command == CONTROL_MONITOR then Monitor
    else Unknown
  }

  /** What the command just taken from client i does; when it is not ok the caller closes the client. */
  ghost predicate Performed(h: Hub, g: Hub, i: nat, c: Control, ok: bool)
    requires i < 16
  {
    match RequestOf(c)
    case Play => ok && exists t: nat :: Rumbled(h, g, i, c, t)
    case Stop => ok && Stopped(h, g, i)
    case Query => QueryAnswered(h, g, i, ok)
    case Monitor => MonitorAnswered(h, g, i, ok)
    case Unknown => !ok && g == h
  }

  /** c is the first whole command waiting; stated so that only a mention of DecodeControl decodes it. */
  ghost predicate Offers(s: Slot, c: Control) {
    && |s.left| >= CONTROL_SIZE
    && forall b: seq<byte> {:trigger DecodeControl(b)} ::
         |b| == CONTROL_SIZE && b == s.left[..CONTROL_SIZE] ==> c == DecodeControl(b)
  }

  lemma OffersDecoded(s: Slot, c: Control)
    requires |s.left| >= CONTROL_SIZE
    ensures Offers(s, c) <==> c == DecodeControl(s.left[..CONTROL_SIZE])
  {}

  /** The first whole command leaves the unparsed bytes. */
  function TakenOff(s: Slot): Slot {
    if |s.left| >= CONTROL_SIZE then s.(ran := s.ran + [s.left[..CONTROL_SIZE]], left := s.left[CONTROL_SIZE..]) else s
  }

  function Taken(h: Hub, i: nat): Hub
    requires i < 16
  {
    WithSlot(h, i, TakenOff(h.slots[i]))
  }

  function Hearing(s: Slot, chunk: seq<byte>): Slot {
    s.(heard := s.heard + chunk, left := s.left + chunk)
  }

  lemma Front<T>(s: seq<T>, x: T)
    ensures (s + [x])[..|s|] == s && (s + [x])[|s|] == x
    ensures forall k :: 0 <= k < |s| ==> (s + [x])[k] == s[k]
  {}

  lemma RumbleOthers(h: Hub, g: Hub, i: nat, c: Control, t: nat)
    requires i < 16 && Rumbled(h, g, i, c, t)
    ensures Others(h, g, i) && Quiet(h.slots[i], g.slots[i]) && g.slots[i].open == h.slots[i].open
  {
    LapseQuiet(WithSlot(h, i, h.slots[i].(low := c.low, high := c.high, expires := t + RumbleMs(c))).(clock := t), true, g.clock);
  }

  lemma StopOthers(h: Hub, g: Hub, i: nat)
    requires i < 16 && Stopped(h, g, i)
    ensures Others(h, g, i) && Quiet(h.slots[i], g.slots[i]) && g.slots[i].open == h.slots[i].open
  {
    LapseQuiet(WithSlot(h, i, h.slots[i].(low := 0, high := 0, expires := 0)), true, g.clock);
  }

  lemma QueryQueued(h: Hub, g: Hub, i: nat, ok: bool)
    requires i < 16 && WellSent(h.slots[i]) && g == WithSlot(h, i, g.slots[i])
    requires Queued(Greeted(h, i, EventClient), g.slots[i], DescriptorMsg(h), ok)
    ensures Elsewhere(h, g, i)
    ensures !ok || h.descriptor.present == 0 ==> QueryAnswered(h, g, i, ok)
  {
    QueueEffect(h, g, i);
  }

  lemma QuerySnapshot(h: Hub, g: Hub, k: Hub, i: nat, m: Msg)
    requires i < 16 && h.descriptor.present != 0 && SnapshotMsg(m, h.pad)
    requires Elsewhere(h, g, i) && Enqueues(Greeted(h, i, EventClient), g.slots[i], DescriptorMsg(h))
    requires Elsewhere(g, k, i) && Delivered(g.slots[i], k.slots[i], m)
    ensures QueryAnswered(h, k, i, true)
  {
    EffectTransitive(h, g, k);
    var s, t, d := Greeted(h, i, EventClient), k.slots[i], DescriptorMsg(h);
    assert g.slots[i].log == s.log + [d];
    assert t.log == s.log + [d] + [m] || (!t.open && t.log == s.log + [d]);
  }

  lemma MonitorQueued(h: Hub, g: Hub, i: nat, ok: bool)
    requires i < 16 && WellSent(h.slots[i]) && g == WithSlot(h, i, g.slots[i])
    requires Queued(Greeted(h, i, MonitorClient), g.slots[i], Announcement(h, CurrentAction(h)), ok)
    ensures MonitorAnswered(h, g, i, ok)
  {
    QueueEffect(h, g, i);
  }

  // ---------------------------------------------------------------- connections

  /** A new connection takes the first free entry; when there is none it is refused. */
  ghost predicate AcceptedAt(h: Hub, g: Hub, i: nat) {
    if i < 16 then
      && (forall j :: 0 <= j < i ==> h.slots[j].open)
      && !h.slots[i].open
      && g == WithSlot(h, i, FRESH_SLOT)
    else (forall j :: 0 <= j < 16 ==> h.slots[j].open) && g == h
  }

  /** An event of the selected device; those of other devices are ignored. */
  ghost predicate XiProcessed(h: Hub, g: Hub, device: nat, source: nat, e: XiEvent, packet: seq<Record>)
    requires WellFormed(e)
  {
    if device != h.deviceId && source != h.deviceId then g == h && packet == []
    else
      var p := NextPad(h.pad, e);
      && Bodies(packet) == Packet(h.pad, p)
      && if packet == [] then g == h.(pad := p)
         else Broadcasted(h.(pad := p), g, EventClient, Wrap(Events(packet)))
  }
}
