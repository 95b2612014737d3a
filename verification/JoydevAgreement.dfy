/** A joystick reader on an event connection of the bridge. */
module JoydevAgreement {
  import opened Bytes
  import opened Protocol
  import opened Controller
  import opened HubModel
  import opened HubSteps
  import opened HubLaws
  import opened Staleness
  import opened Joydev

  lemma {:induction false} FlatGrows(a: seq<Msg>, b: seq<Msg>)
    requires a <= b
    ensures Flat(a) <= Flat(b)
    decreases |b|
  {
    if |a| < |b| {
      FlatGrows(a, b[..|b| - 1]);
    } else {
      assert a == b;
    }
  }

  /** The first two messages of a log contribute the records of the second one. */
  lemma {:induction false} FlatStarts(log: seq<Msg>)
    requires |log| > 1 && !log[0].body.Events? && log[1].body.Events?
    ensures log[1].body.records <= Flat(log)
  {
    var d, m := log[0], log[1];
    assert log[..2] == [d] + [m];
    FlatPush([d], m);
    assert [d][..0] == [] && Flat([d]) == [];
    assert [] + m.body.records == m.body.records;
    FlatGrows(log[..2], log);
  }

  lemma {:induction false} ShapeOfPrefix(first: seq<Record>, rs: seq<Record>)
    requires SnapshotShape(Bodies(first)) && first <= rs
    ensures |rs| >= 21 && CellsInOrder(rs[..20]) && rs[20].event == SYN
  {
    forall c | 0 <= c < 21 ensures rs[c].event == Bodies(first)[c] {
      assert rs[c] == first[c];
    }
  }

  /** The records of such a connection start with a snapshot. */
  lemma {:induction false} StartsWithSnapshot(log: seq<Msg>)
    requires EventLog(log) && |log| > 1 && log[0].body.descriptor.present != 0
    ensures var rs := Flat(log); |rs| >= 21 && CellsInOrder(rs[..20]) && rs[20].event == SYN
  {
    FlatStarts(log);
    ShapeOfPrefix(log[1].body.records, Flat(log));
  }

  /**
   * In every reachable state: what is queued for a joystick reader begins with one initial event
   * for each axis and button, has no initial event after those, and comes, whatever the reader
   * believed before, to the conversion of the cells the queue tells of. While the device stays
   * those are the bridge's.
   */
  lemma JoydevAgrees(init: Hub, h: Hub, i: nat, before: JoyState)
    requires Initial(init) && Reaches(init, h) && i < 16 && Reading(h.slots[i])
    ensures var s := h.slots[i]; var js := JoyEvents(true, Flat(s.log));
      && |js| >= 20 && InitialOnes(js[..20]) && NoneInitial(js[20..])
      && HearAll(before, js) == JoyOf(Belief(s))
      && (s.epoch == h.epoch ==> Belief(s) == Wire(h.pad))
  {
    var s := h.slots[i];
    ReachableInv(init, h);
    assert SlotInv(h, s);
    assert EventLaw(h, s);
    StartsWithSnapshot(s.log);
    InitialEvents(Flat(s.log));
    InitialDetermines(before, JoyOf(Wire(ZERO_PAD)), Flat(s.log));
    HearFold(Wire(ZERO_PAD), true, Flat(s.log));
  }

  /** A control at rest looks like no other. */
  lemma RestIsSeen(k: nat, v: s32)
    requires k < 20 && CellInRange(k, v)
    ensures CellValue(k, v) == CellValue(k, 0) <==> v == 0
  {}

  lemma ZeroCells(k: nat)
    requires k < 20
    ensures Wire(ZERO_PAD)[k] == 0
  {}

  /**
   * A joystick reader has no monitor. After its device has gone, and over every run since, its
   * axis or button x shows what the bridge's state says if and only if that control was at rest
   * when the device went away or was reported since.
   */
  lemma JoydevStale(init: Hub, h: Hub, p: seq<Hub>, ss: seq<Step>, i: nat, before: JoyState, x: nat)
    requires Initial(init) && Reaches(init, h) && i < 16 && x < 20 && Walk(p, ss) && Stands(p, i) && Removes(h, p[0])
    requires Reading(h.slots[i]) && h.slots[i].epoch == h.epoch
    ensures var g, k := p[|ss|], CellBehind(x); var t := g.slots[i];
      HearAll(before, JoyEvents(true, Flat(t.log)))[x] == JoyOf(Wire(g.pad))[x] <==>
        Wire(h.pad)[k] == 0 || Mentioned(k, Since(h.slots[i], t))
  {
    var g, k := p[|ss|], CellBehind(x);
    RemovalReaches(init, h, p, ss);
    JoydevAgrees(init, g, i, before);
    StaleCells(init, h, p, ss, i, k);
    ZeroCells(k);
    StaleCellValue(init, h, p, ss, i, k);
  }

  lemma RemovalReaches(init: Hub, h: Hub, p: seq<Hub>, ss: seq<Step>)
    requires Reaches(init, h) && Walk(p, ss) && Removes(h, p[0])
    ensures Reaches(init, p[|ss|])
  {
    var a: Probe :| Next(h, Refresh(a), p[0]);
    ReachesMore(init, h, Refresh(a), p[0]);
    WalkReaches(p, ss);
    ReachesAll(init, p[0], p[|ss|]);
  }

  /** A cell that was not reported since is believed to be as it was, and is at rest. */
  lemma StaleCellValue(init: Hub, h: Hub, p: seq<Hub>, ss: seq<Step>, i: nat, k: nat)
    requires Initial(init) && Reaches(init, h) && i < 16 && k < 20 && Walk(p, ss) && Stands(p, i) && Removes(h, p[0])
    requires Reading(h.slots[i]) && h.slots[i].epoch == h.epoch
    ensures var g := p[|ss|];
      !Mentioned(k, Since(h.slots[i], g.slots[i])) ==>
        && Belief(g.slots[i])[k] == Wire(h.pad)[k] && Wire(g.pad)[k] == 0
        && (CellValue(k, Wire(h.pad)[k]) == CellValue(k, 0) <==> Wire(h.pad)[k] == 0)
  {
    AgreesAfterRemoval(init, h, p[0], i);
    RemovalStays(h, p[0], i);
    var es := RunTells(p, ss, i);
    assert Since(h.slots[i], p[|ss|].slots[i]) == es;
    FoldAppend(Wire(ZERO_PAD), Heard(h.slots[i]), es);
    FoldCell(Wire(h.pad), Wire(p[0].pad), es, k);
    ZeroCells(k);
    ReachableInv(init, h);
    WireInRange(h.pad);
    RestIsSeen(k, Wire(h.pad)[k]);
  }

  lemma JoyEventsGrow(initializing: bool, a: seq<Record>, b: seq<Record>)
    requires a <= b
    ensures JoyEvents(initializing, a) <= JoyEvents(initializing, b)
  {
    assert b == a + b[|a|..];
    JoyEventsAppend(initializing, a, b[|a|..]);
  }

  /** Reading the connection piece by piece gives the events queued so far, from the first one on. */
  lemma ReadsPrefix(log: seq<Msg>, got: seq<seq<byte>>)
    requires Join(got) <= EncodeRecords(Flat(log))
    ensures ReadRun(true, [], got) <= JoyEvents(true, Flat(log))
    ensures Join(got) == EncodeRecords(Flat(log)) ==> ReadRun(true, [], got) == JoyEvents(true, Flat(log))
  {
    ReadsCompose(true, [], got);
    var all, n := EncodeRecords(Flat(log)), |Join(got)|;
    assert [] + Join(got) == Join(got) == all[..n];
    RecordsOfPrefix(Flat(log), n);
    JoyEventsGrow(true, RecordsIn(Join(got)), Flat(log));
  }
}
