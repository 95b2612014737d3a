/** What every run does to the motor. */
module MotorLaws {
  import opened Bytes
  import opened Protocol
  import opened Controller
  import opened HubModel
  import opened HubSteps

  /** Requests end within 2^32 - 1 ms, and the peak on record is that of the requests. */
  ghost predicate Accounted(h: Hub) {
    && Bounded(h)
    && h.activeLow == PeakOf(h.slots).low && h.activeHigh == PeakOf(h.slots).high
  }

  /** Requests are on record, and the motor rests. */
  ghost predicate Hushed(h: Hub) { h.motor == Silent && (h.activeLow != 0 || h.activeHigh != 0) }

  lemma HushedIsWrong(h: Hub)
    requires Accounted(h) && Hushed(h)
    ensures !Steady(h) && Consistent(h)
  {}

  lemma SteadyIsConsistent(h: Hub)
    requires Steady(h)
    ensures Consistent(h)
  {}

  /** Nothing has happened that concerns the motor. */
  ghost predicate SameMotor(h: Hub, g: Hub) {
    && g.motor == h.motor && g.activeLow == h.activeLow && g.activeHigh == h.activeHigh && h.clock <= g.clock
    && forall i :: 0 <= i < 16 ==> SameRequest(h.slots[i], g.slots[i])
  }

  lemma SameMotorKeeps(h: Hub, g: Hub)
    requires SameMotor(h, g) && Accounted(h)
    ensures Accounted(g) && (Steady(h) ==> Steady(g)) && (Hushed(h) ==> Hushed(g)) && (Consistent(h) ==> Consistent(g))
  {
    PeakCongruence(h.slots, g.slots);
  }

  // ------------------------------------------------------------ losing clients

  /** A client whose request is being played is gone. */
  ghost predicate LosesPlayer(h: Hub, g: Hub) {
    exists i :: 0 <= i < 16 && Playing(h.slots[i]) && !g.slots[i].open
  }

  ghost predicate NoneOpened(h: Hub, g: Hub) { forall i :: 0 <= i < 16 && g.slots[i].open ==> h.slots[i].open }

  /** Losing such a client makes the motor right, losing others does nothing to it. */
  ghost predicate MotorEffect(h: Hub, g: Hub) {
    && Accounted(g) && NoneOpened(h, g) && g.deviceId == h.deviceId && g.capabilities == h.capabilities
    && (Capable(h) && Consistent(h) ==> if LosesPlayer(h, g) then Steady(g) else SameMotor(h, g))
  }

  lemma UndisturbedMotor(h: Hub, g: Hub)
    requires Accounted(h) && Undisturbed(h, g)
    ensures MotorEffect(h, g)
  {
    SameMotorKeeps(h, g);
  }

  lemma ForcedAccounts(h: Hub, now: nat)
    requires Bounded(h) && h.clock <= now
    ensures Accounted(UpdateRumble(h, true, now))
  {}

  lemma BereavedMotor(h: Hub, g: Hub, i: nat)
    requires i < 16 && Accounted(h) && Playing(h.slots[i]) && h.clock <= g.clock && g == CloseClient(h, i, g.clock)
    ensures MotorEffect(h, g)
  {
    var k := WithSlot(h, i, Closed(h.slots[i]));
    LapseQuiet(k, true, g.clock);
    ForcedAccounts(k, g.clock);
    if Capable(h) && Consistent(h) {
      UpdateSteadies(k, true, g.clock);
      assert LosesPlayer(h, g);
    }
  }

  lemma MotorTransitive(h: Hub, g: Hub, k: Hub)
    requires Accounted(h) && MotorEffect(h, g) && MotorEffect(g, k)
    ensures MotorEffect(h, k)
  {
    if Capable(h) && Consistent(h) {
      if LosesPlayer(h, g) {
        SteadyIsConsistent(g);
        if !LosesPlayer(g, k) {
          SameMotorKeeps(g, k);
        }
      } else {
        SameMotorKeeps(h, g);
      }
    }
  }

  lemma {:induction false} ArbitratedMotor(t: seq<Hub>, h: Hub, g: Hub)
    requires Accounted(h) && Arbitrated(t, h, g)
    ensures MotorEffect(h, g)
  {
    if |t| == 1 {
      UndisturbedMotor(h, h);
    } else {
      var k := t[|t| - 2];
      ArbitratedMotor(t[..|t| - 1], h, k);
      if Undisturbed(k, g) {
        UndisturbedMotor(k, g);
      } else {
        assert Bereaved(k, g);
        var i: nat :| i < 16 && Playing(k.slots[i]) && k.clock <= g.clock && g == CloseClient(k, i, g.clock);
        BereavedMotor(k, g, i);
      }
      MotorTransitive(h, k, g);
    }
  }

  /** All that queueing messages can do. */
  lemma EffectMotor(h: Hub, g: Hub)
    requires Accounted(h) && RumbleEffect(h, g)
    ensures MotorEffect(h, g)
  {
    var t :| Arbitrated(t, h, g);
    ArbitratedMotor(t, h, g);
  }

  // -------------------------------------------------------------------- one step

  /**
   * A step that makes the motor right even if it was not: an update that is forced, finds nothing
   * to play or finds another peak than is recorded; a rumble command; the loss of a client whose
   * request is being played.
   */
  ghost predicate Wakes(h: Hub, s: Step, g: Hub) {
    match s
    case Update(force) =>
      var p := PeakOf(LapseAll(h.slots, g.clock));
      force || (p.low == 0 && p.high == 0) || p.low != h.activeLow || p.high != h.activeHigh
    case Obey(_, c) => RequestOf(c) == Play || RequestOf(c) == Stop || LosesPlayer(h, g)
    case _ => LosesPlayer(h, g)
  }

  /** What becomes of a motor that is right or silent against the requests. */
  ghost predicate Follows(h: Hub, g: Hub, wakes: bool) {
    && Accounted(g) && g.deviceId == h.deviceId && g.capabilities == h.capabilities
    && (Capable(h) && (Steady(h) || Hushed(h)) ==> if Steady(h) || wakes then Steady(g) else Hushed(g))
  }

  lemma EffectFollows(h: Hub, g: Hub)
    requires Accounted(h) && MotorEffect(h, g)
    ensures Follows(h, g, LosesPlayer(h, g))
  {
    if Capable(h) && Consistent(h) && !LosesPlayer(h, g) {
      SameMotorKeeps(h, g);
    }
  }

  lemma ForcedFollows(h: Hub, k: Hub, now: nat)
    requires Accounted(h) && Bounded(k) && k.clock <= now
    requires k.motor == h.motor && k.activeLow == h.activeLow && k.activeHigh == h.activeHigh
    requires k.deviceId == h.deviceId && k.capabilities == h.capabilities
    ensures Follows(h, UpdateRumble(k, true, now), true)
  {
    ForcedAccounts(k, now);
    if Capable(h) && (Steady(h) || Hushed(h)) {
      UpdateSteadies(k, true, now);
    }
  }

  lemma RumbledFollows(h: Hub, g: Hub, i: nat, c: Control, t: nat)
    requires i < 16 && Accounted(h) && Rumbled(h, g, i, c, t)
    ensures Follows(h, g, true)
  {
    var k := WithSlot(h, i, h.slots[i].(low := c.low, high := c.high, expires := t + RumbleMs(c))).(clock := t);
    ForcedFollows(h, k, g.clock);
  }

  lemma StoppedFollows(h: Hub, g: Hub, i: nat)
    requires i < 16 && Accounted(h) && Stopped(h, g, i)
    ensures Follows(h, g, true)
  {
    ForcedFollows(h, WithSlot(h, i, h.slots[i].(low := 0, high := 0, expires := 0)), g.clock);
  }

  lemma UpdateFollows(h: Hub, force: bool, g: Hub)
    requires Accounted(h) && h.clock <= g.clock && g == UpdateRumble(h, force, g.clock)
    ensures Follows(h, g, Wakes(h, Update(force), g))
  {
    if Capable(h) && Steady(h) {
      UpdateSteadies(h, force, g.clock);
    } else if Capable(h) && Hushed(h) {
      UpdateAfterSwap(h, force, g.clock);
    }
  }

  lemma PerformedEffect(h: Hub, g: Hub, i: nat, c: Control, ok: bool)
    requires i < 16 && h.slots[i].open && Performed(h, g, i, c, ok) && RequestOf(c) != Play && RequestOf(c) != Stop
    ensures RumbleEffect(h, g) && (!ok ==> g.slots[i].open)
  {
    if RequestOf(c) == Unknown {
      EffectNone(h);
    }
  }

  lemma ServedEffect(h: Hub, g: Hub, i: nat, c: Control)
    requires i < 16 && h.slots[i].open && Served(h, g, i, c) && RequestOf(c) != Play && RequestOf(c) != Stop
    ensures RumbleEffect(h, g)
  {
    if Performed(h, g, i, c, true) {
      PerformedEffect(h, g, i, c, true);
    } else {
      var mid :| Performed(h, mid, i, c, false) && mid.clock <= g.clock && g == CloseClient(mid, i, g.clock);
      PerformedEffect(h, mid, i, c, false);
      CloseElsewhere(mid, i, g.clock);
      EffectTransitive(h, mid, g);
    }
  }

  lemma ServedFollows(h: Hub, g: Hub, i: nat, c: Control)
    requires i < 16 && h.slots[i].open && Accounted(h) && Served(h, g, i, c)
    ensures Follows(h, g, RequestOf(c) == Play || RequestOf(c) == Stop || LosesPlayer(h, g))
  {
    match RequestOf(c)
    case Play =>
      var t: nat :| Rumbled(h, g, i, c, t);
      RumbledFollows(h, g, i, c, t);
    case Stop => StoppedFollows(h, g, i);
    case _ =>
      ServedEffect(h, g, i, c);
      EffectMotor(h, g);
      EffectFollows(h, g);
  }

  /** What happens to a state that differs from h in nothing that concerns the motor. */
  lemma SameFollows(h: Hub, k: Hub, g: Hub, wakes: bool)
    requires SameMotor(h, k) && k.deviceId == h.deviceId && k.capabilities == h.capabilities
    requires Accounted(h) && Follows(k, g, wakes)
    ensures Follows(h, g, wakes)
  {
    SameMotorKeeps(h, k);
  }

  lemma ObeyFollows(h: Hub, g: Hub, i: nat, c: Control)
    requires i < 16 && h.slots[i].open && Accounted(h) && Obeyed(h, g, i, c)
    ensures Follows(h, g, Wakes(h, Obey(i, c), g))
  {
    var k := Taken(h, i);
    SameMotorKeeps(h, k);
    ServedFollows(k, g, i, c);
    assert LosesPlayer(k, g) <==> LosesPlayer(h, g);
    SameFollows(h, k, g, Wakes(h, Obey(i, c), g));
  }

  lemma BroadcastFollows(h: Hub, d: Hub, g: Hub, kind: Kind, m: Msg)
    requires Accounted(h) && Broadcasted(d, g, kind, m) && SameMotor(h, d)
    requires d.deviceId == h.deviceId && d.capabilities == h.capabilities && d.slots == h.slots
    ensures Follows(h, g, LosesPlayer(h, g))
  {
    SameMotorKeeps(h, d);
    EffectMotor(d, g);
    EffectFollows(d, g);
    SameFollows(h, d, g, LosesPlayer(h, g));
  }

  lemma XiFollows(h: Hub, g: Hub, device: nat, source: nat, e: XiEvent, packet: seq<Record>)
    requires Accounted(h) && WellFormed(e) && XiProcessed(h, g, device, source, e, packet)
    ensures Follows(h, g, LosesPlayer(h, g))
  {
    var d := h.(pad := g.pad);
    if g == d {
      QuietFollows(h, g);
    } else {
      BroadcastFollows(h, d, g, EventClient, Wrap(Events(packet)));
    }
  }

  /** Steps of the queues and the commands' bytes. */
  lemma QuietFollows(h: Hub, g: Hub)
    requires Accounted(h) && SameMotor(h, g) && g.deviceId == h.deviceId && g.capabilities == h.capabilities
    requires forall i :: 0 <= i < 16 && h.slots[i].open ==> g.slots[i].open
    ensures !LosesPlayer(h, g) && Follows(h, g, false)
  {
    SameMotorKeeps(h, g);
  }

  /** One step with the same device: the motor is made right, or stays as right or wrong as it was. */
  lemma StepFollows(h: Hub, s: Step, g: Hub)
    requires Accounted(h) && Next(h, s, g) && !s.Refresh?
    ensures Follows(h, g, Wakes(h, s, g))
  {
    match s
    case Xi(device, source, e) =>
      var packet :| XiProcessed(h, g, device, source, e, packet);
      XiFollows(h, g, device, source, e, packet);
    case Accept =>
      var i: nat :| AcceptedAt(h, g, i);
      QuietFollows(h, g);
    case Flush(i) => QuietFollows(h, g);
    case Hear(i, chunk) => QuietFollows(h, g);
    case Close(i) =>
      CloseElsewhere(h, i, g.clock);
      EffectMotor(h, g);
      EffectFollows(h, g);
    case Obey(i, c) => ObeyFollows(h, g, i, c);
    case Update(force) => UpdateFollows(h, force, g);
  }

  // ---------------------------------------------------------------- the device

  lemma AnnouncedAccounts(d: Hub, g: Hub, m: Msg)
    requires Accounted(d) && Broadcasted(d, g, MonitorClient, m)
    ensures Accounted(g)
  {
    EffectMotor(d, g);
  }

  lemma RefreshAccounts(h: Hub, mid: Hub, g: Hub, a: Probe)
    requires Accounted(h) && GoodProbe(a) && Refreshed(h, mid, g, a)
    ensures Accounted(mid) && Accounted(g)
  {
    if !(h.deviceId >= 0 && Unchanged(h, a)) {
      if h.deviceId >= 0 {
        AnnouncedAccounts(Removed(h), mid, Announcement(Removed(h), HOTPLUG_REMOVE));
      }
      if a.Found? && a.selectable {
        AnnouncedAccounts(Added(mid, a), g, Announcement(Added(mid, a), HOTPLUG_ADD));
      }
    }
  }

  lemma StepAccounts(h: Hub, s: Step, g: Hub)
    requires Accounted(h) && Next(h, s, g)
    ensures Accounted(g)
  {
    if s.Refresh? {
      var mid :| Refreshed(h, mid, g, s.a);
      RefreshAccounts(h, mid, g, s.a);
    } else {
      StepFollows(h, s, g);
    }
  }

  lemma InitialAccounts(h: Hub)
    requires Initial(h)
    ensures Accounted(h)
  {
    PeakIsMaximum(h.slots);
  }

  /** In every reachable state the record of the peak is right. */
  lemma {:induction false} ReachableAccounts(p: seq<Hub>, init: Hub, h: Hub)
    requires Initial(init) && Path(p, init, h)
    ensures Accounted(h)
  {
    if |p| == 1 {
      InitialAccounts(init);
    } else {
      var n := |p| - 1;
      Shorten(p, init, h);
      ReachableAccounts(p[..n], init, p[n - 1]);
      var s :| Next(p[n - 1], s, h);
      StepAccounts(p[n - 1], s, h);
    }
  }

  // ------------------------------------------------------------------ every run

  ghost predicate SameDeviceRun(ss: seq<Step>) { forall k :: 0 <= k < |ss| ==> !ss[k].Refresh? }

  ghost predicate WakesAt(p: seq<Hub>, ss: seq<Step>, k: nat)
    requires |p| == |ss| + 1 && k < |ss|
  {
    Wakes(p[k], ss[k], p[k + 1])
  }

  /** Some step of the run makes the motor right. */
  ghost predicate SomeWakes(p: seq<Hub>, ss: seq<Step>)
    requires |p| == |ss| + 1
  {
    exists k :: 0 <= k < |ss| && WakesAt(p, ss, k)
  }

  lemma WakesLater(p: seq<Hub>, ss: seq<Step>)
    requires |p| == |ss| + 1 && ss != []
    ensures var n := |ss| - 1;
      SomeWakes(p, ss) <==> SomeWakes(p[..n + 1], ss[..n]) || Wakes(p[n], ss[n], p[n + 1])
  {
    var n := |ss| - 1;
    forall k | 0 <= k < n ensures WakesAt(p, ss, k) <==> WakesAt(p[..n + 1], ss[..n], k) {}
    if SomeWakes(p[..n + 1], ss[..n]) {
      var k :| 0 <= k < n && WakesAt(p[..n + 1], ss[..n], k);
      assert WakesAt(p, ss, k);
    }
    if Wakes(p[n], ss[n], p[n + 1]) {
      assert WakesAt(p, ss, n);
    }
  }

  /** Runs with one device, from a motor that is right or rests against the requests. */
  lemma {:induction false} RunFollows(p: seq<Hub>, ss: seq<Step>)
    requires Walk(p, ss) && SameDeviceRun(ss) && Accounted(p[0])
    ensures Follows(p[0], p[|ss|], SomeWakes(p, ss))
  {
    var n := |ss| - 1;
    if ss == [] {
      QuietFollows(p[0], p[0]);
    } else {
      RunFollows(p[..n + 1], ss[..n]);
      StepFollows(p[n], ss[n], p[n + 1]);
      WakesLater(p, ss);
    }
  }

  /**
   * From the moment the motor is right for a rumble-capable device, it stays right for as long as
   * that device is selected, whatever the clients ask for and however they come and go.
   */
  lemma MotorFollowsRequests(p: seq<Hub>, ss: seq<Step>)
    requires Walk(p, ss) && SameDeviceRun(ss) && Capable(p[0]) && Bounded(p[0]) && Steady(p[0])
    ensures var g := p[|ss|]; Capable(g) && Bounded(g) && Steady(g)
  {
    RunFollows(p, ss);
  }

  /** a is selected, after the device before it, if any, has been removed. */
  ghost predicate Selects(h: Hub, mid: Hub, g: Hub, a: Probe) {
    && GoodProbe(a) && Refreshed(h, mid, g, a)
    && a.Found? && a.selectable && !(h.deviceId >= 0 && Unchanged(h, a))
  }

  /**
   * The motor across a swap. In every reachable state and every run since a rumble-capable device
   * was selected, the motor does what the requests ask for if and only if nothing was being asked
   * for at the selection, or a client with a live request was lost in announcing it, or some later
   * step was a rumble command, the loss of such a client, or an update that was forced, found
   * nothing to play or found a peak other than the one recorded. Otherwise it rests.
   */
  lemma MotorAfterSwap(init: Hub, h: Hub, mid: Hub, a: Probe, p: seq<Hub>, ss: seq<Step>)
    requires Initial(init) && Reaches(init, h) && Walk(p, ss) && SameDeviceRun(ss)
    requires Selects(h, mid, p[0], a) && a.capabilities % 2 == 1
    ensures var asked, g := PeakOf(mid.slots), p[|ss|];
      && Capable(g)
      && (Steady(g) <==> (asked.low == 0 && asked.high == 0) || LosesPlayer(mid, p[0]) || SomeWakes(p, ss))
      && (!Steady(g) ==> g.motor == Silent)
  {
    var q :| Path(q, init, h);
    ReachableAccounts(q, init, h);
    RefreshAccounts(h, mid, p[0], a);
    SelectionFollows(mid, p[0], a);
    RunFollows(p, ss);
    if Hushed(p[|ss|]) {
      HushedIsWrong(p[|ss|]);
    }
  }

  lemma SelectionFollows(mid: Hub, g: Hub, a: Probe)
    requires Accounted(mid) && GoodProbe(a) && a.Found? && a.capabilities % 2 == 1
    requires Broadcasted(Added(mid, a), g, MonitorClient, Announcement(Added(mid, a), HOTPLUG_ADD))
    ensures var asked := PeakOf(mid.slots);
      && Capable(g) && Accounted(g)
      && if (asked.low == 0 && asked.high == 0) || LosesPlayer(mid, g) then Steady(g) else Hushed(g)
  {
    var d := Added(mid, a);
    SilentPeak(mid.slots);
    BroadcastFollows(d, d, g, MonitorClient, Announcement(d, HOTPLUG_ADD));
    assert LosesPlayer(d, g) <==> LosesPlayer(mid, g);
  }

  /**
   * In every reachable state the duration of a command is the time to the last live expiry, in
   * milliseconds: neither the 32-bit clamp nor the floor of one ever changes it.
   */
  lemma DurationsExact(init: Hub, h: Hub, now: nat)
    requires Initial(init) && Reaches(init, h) && h.clock <= now
    ensures var p := PeakOf(LapseAll(h.slots, now));
      p.low != 0 || p.high != 0 ==>
        1 <= p.until - now <= U32_MAX && Duration(Remaining(p, now)) == p.until - now
  {
    var p :| Path(p, init, h);
    ReachableAccounts(p, init, h);
    LapsedBounds(h, now);
  }

  // -------------------------------------------------------------- zero magnitudes

  /**
   * A RUMBLE with both magnitudes zero leaves an expiry behind. An expiry of zero is a sign of
   * silence after a RUMBLE if and only if some magnitude was not zero.
   */
  lemma ExpiryTellsSilence(h: Hub, g: Hub, i: nat, c: Control, t: nat)
    requires i < 16 && h.slots[i].open && Rumbled(h, g, i, c, t)
    ensures (g.slots[i].expires == 0 <==> !Playing(g.slots[i])) <==> (c.low != 0 || c.high != 0)
  {
    assert RumbleMs(c) > 0;
  }
}
