/** The bridge as a state machine: everything its main loop does, in any order. */
module HubSteps {
  import opened Bytes
  import opened Protocol
  import opened Controller
  import opened HubModel

  datatype Step =
    | Xi(device: nat, source: nat, e: XiEvent)
    | Refresh(a: Probe)
    | Accept
    | Flush(i: nat)
    | Hear(i: nat, chunk: seq<byte>)
    | Close(i: nat)
    | Obey(i: nat, c: Control)
    | Update(force: bool)

  /** What the X server delivers: the set of devices changed, or a device event. */
  datatype XInput = HierarchyChanged(answer: Probe) | DeviceEvent(device: nat, source: nat, event: XiEvent)

  ghost predicate GoodInput(x: XInput) {
    match x
    case HierarchyChanged(a) => GoodProbe(a)
    case DeviceEvent(_, _, e) => WellFormed(e)
  }

  /** What poll reports for one client. */
  datatype Ready = Ready(writable: bool, broken: bool, readable: bool)

  /** The effect of a command of client i; one that fails takes its client with it. */
  ghost predicate Served(h: Hub, g: Hub, i: nat, c: Control)
    requires i < 16
  {
    || Performed(h, g, i, c, true)
    || exists mid :: Performed(h, mid, i, c, false) && mid.clock <= g.clock && g == CloseClient(mid, i, g.clock)
  }

  /** The next command of client i. */
  ghost predicate Obeyed(h: Hub, g: Hub, i: nat, c: Control)
    requires i < 16
  {
    Offers(h.slots[i], c) && Served(Taken(h, i), g, i, c)
  }

  ghost predicate Next(h: Hub, s: Step, g: Hub) {
    match s
    case Xi(device, source, e) => WellFormed(e) && exists packet :: XiProcessed(h, g, device, source, e, packet)
    case Refresh(a) => GoodProbe(a) && exists mid :: Refreshed(h, mid, g, a)
    case Accept => exists i: nat :: AcceptedAt(h, g, i)
    case Flush(i) => i < 16 && h.slots[i].open && Flushed(h, g, i)
    case Hear(i, chunk) => i < 16 && h.slots[i].open && g == WithSlot(h, i, Hearing(h.slots[i], chunk))
    case Close(i) => i < 16 && h.slots[i].open && h.clock <= g.clock && g == CloseClient(h, i, g.clock)
    case Obey(i, c) => i < 16 && h.slots[i].open && GoodHeader(c) && Obeyed(h, g, i, c)
    case Update(force) => h.clock <= g.clock && g == UpdateRumble(h, force, g.clock)
  }

  ghost predicate Moves(h: Hub, g: Hub) { exists s :: Next(h, s, g) }

  /** A run of the bridge from h to g. */
  ghost predicate Path(p: seq<Hub>, h: Hub, g: Hub) {
    && |p| > 0 && p[0] == h && p[|p| - 1] == g
    && forall k :: 0 <= k < |p| - 1 ==> Moves(p[k], p[k + 1])
  }

  /** A run with its steps. */
  ghost predicate Walk(p: seq<Hub>, ss: seq<Step>) {
    |p| == |ss| + 1 && forall k :: 0 <= k < |ss| ==> Next(p[k], ss[k], p[k + 1])
  }

  lemma WalkReaches(p: seq<Hub>, ss: seq<Step>)
    requires Walk(p, ss)
    ensures Reaches(p[0], p[|ss|])
  {
    forall k | 0 <= k < |p| - 1 ensures Moves(p[k], p[k + 1]) {
      assert Next(p[k], ss[k], p[k + 1]);
    }
    assert Path(p, p[0], p[|ss|]);
  }

  ghost predicate Reaches(h: Hub, g: Hub) { exists p :: Path(p, h, g) }

  lemma Stays(h: Hub)
    ensures Reaches(h, h)
  {
    assert Path([h], h, h);
  }

  lemma PathMore(p: seq<Hub>, h: Hub, g: Hub, k: Hub)
    requires Path(p, h, g) && Moves(g, k)
    ensures Path(p + [k], h, k)
  {
    var q := p + [k];
    forall n | 0 <= n < |q| - 1 ensures Moves(q[n], q[n + 1]) {
      assert q[n] == p[n];
      assert n + 1 < |p| ==> q[n + 1] == p[n + 1];
    }
  }

  lemma ReachesMore(h: Hub, g: Hub, s: Step, k: Hub)
    requires Reaches(h, g) && Next(g, s, k)
    ensures Reaches(h, k)
  {
    var p :| Path(p, h, g);
    assert Moves(g, k);
    PathMore(p, h, g, k);
  }

  lemma {:induction false} ReachesAll(h: Hub, g: Hub, k: Hub)
    requires Reaches(h, g) && Reaches(g, k)
    ensures Reaches(h, k)
  {
    var p :| Path(p, h, g);
    var q :| Path(q, g, k);
    var r := p + q[1..];
    forall n | 0 <= n < |r| - 1 ensures Moves(r[n], r[n + 1]) {
      if n >= |p| - 1 {
        assert r[n] == q[n - |p| + 1] && r[n + 1] == q[n - |p| + 2];
      }
    }
    assert Path(r, h, k);
  }

  lemma Shorten(p: seq<Hub>, h: Hub, g: Hub)
    requires Path(p, h, g) && |p| > 1
    ensures Path(p[..|p| - 1], h, p[|p| - 2]) && Moves(p[|p| - 2], g)
  {
    assert Moves(p[|p| - 2], p[|p| - 1]);
  }

  /** Client i's last command has failed, and the client is still there. */
  ghost predicate Disobeyed(h: Hub, g: Hub, i: nat)
    requires i < 16
  {
    exists k, c :: Reaches(h, k) && k.slots[i].open && GoodHeader(c) && Offers(k.slots[i], c) && Performed(Taken(k, i), g, i, c, false)
  }

  /** Closing it belongs to the same step. */
  lemma DisobeyedReaches(h: Hub, g: Hub, i: nat, k: Hub)
    requires i < 16 && Disobeyed(h, g, i) && g.clock <= k.clock && k == CloseClient(g, i, k.clock)
    ensures Reaches(h, k)
  {
    var m, c :| Reaches(h, m) && m.slots[i].open && GoodHeader(c) && Offers(m.slots[i], c) && Performed(Taken(m, i), g, i, c, false);
    assert Served(Taken(m, i), k, i, c);
    ReachesMore(h, m, Obey(i, c), k);
  }

  lemma DisobeyedLater(h: Hub, g: Hub, k: Hub, i: nat)
    requires i < 16 && Reaches(h, g) && Disobeyed(g, k, i)
    ensures Disobeyed(h, k, i)
  {
    var m, c :| Reaches(g, m) && m.slots[i].open && GoodHeader(c) && Offers(m.slots[i], c) && Performed(Taken(m, i), k, i, c, false);
    ReachesAll(h, g, m);
  }

  /** A run, or a run up to a command that failed. */
  ghost predicate Arrives(h: Hub, g: Hub, i: nat, whole: bool)
    requires i < 16
  {
    match whole
    case true => Reaches(h, g)
    case false => Disobeyed(h, g, i)
  }

  lemma ArrivesLater(h: Hub, g: Hub, k: Hub, i: nat, whole: bool)
    requires i < 16 && Reaches(h, g) && Arrives(g, k, i, whole)
    ensures Arrives(h, k, i, whole)
  {
    if whole {
      ReachesAll(h, g, k);
    } else {
      DisobeyedLater(h, g, k, i);
    }
  }
}
