/** The command parser over a whole connection, however its bytes are chunked. */
module ParserLaws {
  import opened Bytes
  import opened Protocol
  import opened Controller
  import opened HubModel
  import opened HubSteps

  /** A whole command with the right magic and version. */
  ghost predicate WellHeaded(r: seq<byte>) { |r| == CONTROL_SIZE && GoodHeader(DecodeControl(r)) }

  /** The commands taken and the bytes left over are what was received. */
  ghost predicate ParserLaw(s: Slot) {
    && (forall r :: r in s.ran ==> WellHeaded(r))
    && if s.open then Join(s.ran) + s.left == s.heard else Join(s.ran) <= s.heard && s.left == []
  }

  ghost predicate BadHeader(left: seq<byte>) {
    |left| >= CONTROL_SIZE && !WellHeaded(left[..CONTROL_SIZE])
  }

  ghost predicate BadCommandAt(input: seq<byte>, n: nat) {
    n < |Records(input, CONTROL_SIZE)| && !WellHeaded(Records(input, CONTROL_SIZE)[n])
  }

  lemma {:induction false} FrontRecords(ran: seq<seq<byte>>, rest: seq<byte>)
    requires forall r :: r in ran ==> |r| == CONTROL_SIZE
    ensures Records(Join(ran) + rest, CONTROL_SIZE) == ran + Records(rest, CONTROL_SIZE)
    ensures Rest(Join(ran) + rest, CONTROL_SIZE) == Rest(rest, CONTROL_SIZE)
  {
    CutsOfJoin(ran, CONTROL_SIZE);
    CutsCompose(Join(ran), rest, CONTROL_SIZE);
    assert [] + rest == rest;
  }

  /**
   * For any chunking, the commands obeyed since connect are the parse of all the bytes received
   * since then: from the front, in order, all of them while the client stays and less than one is
   * left over, and up to the bad header when that is what comes next.
   */
  lemma {:induction false} ParsesWholeStream(s: Slot)
    requires ParserLaw(s)
    ensures s.ran <= Records(s.heard, CONTROL_SIZE)
    ensures s.open && |s.left| < CONTROL_SIZE ==>
      s.ran == Records(s.heard, CONTROL_SIZE) && s.left == Rest(s.heard, CONTROL_SIZE)
    ensures s.open && BadHeader(s.left) ==> BadCommandAt(s.heard, |s.ran|)
  {
    var rest := s.heard[|Join(s.ran)|..];
    assert s.heard == Join(s.ran) + rest;
    FrontRecords(s.ran, rest);
    if s.open {
      assert rest == s.left;
      if BadHeader(s.left) {
        assert Records(s.left, CONTROL_SIZE)[0] == s.left[..CONTROL_SIZE];
      }
    }
  }

  lemma {:induction false} HearingParses(s: Slot, chunk: seq<byte>)
    requires ParserLaw(s) && s.open
    ensures ParserLaw(Hearing(s, chunk))
  {
    Regroup(Join(s.ran), s.left, chunk);
  }

  lemma {:induction false} TakingParses(s: Slot, c: Control)
    requires ParserLaw(s) && s.open && Offers(s, c) && GoodHeader(c)
    ensures ParserLaw(TakenOff(s))
  {
    if |s.left| >= CONTROL_SIZE {
      OffersDecoded(s, c);
      var r, rest := s.left[..CONTROL_SIZE], s.left[CONTROL_SIZE..];
      assert s.left == r + rest;
      JoinPush(s.ran, r);
      Regroup(Join(s.ran), r, rest);
    }
  }

  /** The end of a connection: what was not parsed is forgotten. */
  lemma {:induction false} EndParses(s: Slot, t: Slot)
    requires ParserLaw(s) && t.heard == s.heard && t.ran == s.ran && t.left == [] && !t.open
    ensures ParserLaw(t)
  {
    assert Join(s.ran) <= s.heard;
  }

  function Concat(parts: seq<seq<seq<byte>>>): seq<seq<byte>> {
    if parts == [] then [] else Concat(parts[..|parts| - 1]) + parts[|parts| - 1]
  }

  /**
   * The same turn by turn: lefts is what was kept before each turn, chunks what it received, raws
   * what it ran, all turns but the last complete. The last one, raw out of last, may have stopped
   * anywhere, and a bad header where it stopped is one of the whole stream.
   */
  lemma {:induction false} TurnsParseWhole(lefts: seq<seq<byte>>, chunks: seq<seq<byte>>, raws: seq<seq<seq<byte>>>,
                                           last: seq<byte>, raw: seq<seq<byte>>)
    requires |lefts| == |chunks| + 1 && |raws| == |chunks| && lefts[0] == []
    requires forall k :: 0 <= k < |chunks| ==>
      && raws[k] == Records(lefts[k] + chunks[k], CONTROL_SIZE)
      && lefts[k + 1] == Rest(lefts[k] + chunks[k], CONTROL_SIZE)
    requires raw <= Records(lefts[|chunks|] + last, CONTROL_SIZE)
    ensures Concat(raws) == Records(Join(chunks), CONTROL_SIZE)
    ensures lefts[|chunks|] == Rest(Join(chunks), CONTROL_SIZE)
    ensures Concat(raws) + raw <= Records(Join(chunks) + last, CONTROL_SIZE)
    ensures BadCommandAt(lefts[|chunks|] + last, |raw|) ==> BadCommandAt(Join(chunks) + last, |Concat(raws)| + |raw|)
  {
    if chunks != [] {
      var n := |chunks| - 1;
      TurnsParseWhole(lefts[..n + 1], chunks[..n], raws[..n], [], []);
      JoinLast(chunks);
      CutsCompose(Join(chunks[..n]), chunks[n], CONTROL_SIZE);
    }
    CutsCompose(Join(chunks), last, CONTROL_SIZE);
  }

  // ------------------------------------------------------------------- every run

  ghost predicate ParserInv(h: Hub) { forall i :: 0 <= i < 16 ==> ParserLaw(h.slots[i]) }

  /** Nothing was received or taken, though the connection may have ended. */
  predicate Idles(s: Slot, t: Slot) {
    && t.heard == s.heard && t.ran == s.ran
    && if t.open then s.open && t.left == s.left else t.left == if s.open then [] else s.left
  }

  lemma IdlesKeep(s: Slot, t: Slot)
    requires ParserLaw(s) && Idles(s, t)
    ensures ParserLaw(t)
  {
    if s.open && !t.open {
      EndParses(s, t);
    }
  }

  /** Only one slot hears something or runs a command. */
  ghost predicate Parses(h: Hub, g: Hub, i: nat) {
    forall j :: 0 <= j < 16 && j != i ==> Idles(h.slots[j], g.slots[j])
  }

  lemma ParsesKeep(h: Hub, g: Hub, i: nat)
    requires i < 16 && ParserInv(h) && Parses(h, g, i) && ParserLaw(g.slots[i])
    ensures ParserInv(g)
  {
    forall j | 0 <= j < 16 ensures ParserLaw(g.slots[j]) {
      if j != i {
        IdlesKeep(h.slots[j], g.slots[j]);
      }
    }
  }

  ghost predicate Idle(h: Hub, g: Hub) { forall j :: 0 <= j < 16 ==> Idles(h.slots[j], g.slots[j]) }

  lemma IdleKeeps(h: Hub, g: Hub)
    requires ParserInv(h) && Idle(h, g)
    ensures ParserInv(g)
  {
    forall j | 0 <= j < 16 ensures ParserLaw(g.slots[j]) {
      IdlesKeep(h.slots[j], g.slots[j]);
    }
  }

  lemma BroadcastIdles(h: Hub, g: Hub, kind: Kind, m: Msg)
    requires Broadcasted(h, g, kind, m)
    ensures Idle(h, g)
  {}

  lemma IdleTransitive(h: Hub, g: Hub, k: Hub)
    requires Idle(h, g) && Idle(g, k)
    ensures Idle(h, k)
  {
    forall j | 0 <= j < 16 ensures Idles(h.slots[j], k.slots[j]) {
      assert Idles(h.slots[j], g.slots[j]) && Idles(g.slots[j], k.slots[j]);
    }
  }

  lemma {:induction false} RefreshIdles(h: Hub, mid: Hub, g: Hub, a: Probe)
    requires GoodProbe(a) && Refreshed(h, mid, g, a)
    ensures Idle(h, g)
  {
    if !(h.deviceId >= 0 && Unchanged(h, a)) {
      if h.deviceId >= 0 {
        BroadcastIdles(Removed(h), mid, MonitorClient, Announcement(Removed(h), HOTPLUG_REMOVE));
      }
      assert Idle(h, mid);
      if a.Found? && a.selectable {
        BroadcastIdles(Added(mid, a), g, MonitorClient, Announcement(Added(mid, a), HOTPLUG_ADD));
        IdleTransitive(h, mid, g);
      }
    }
  }

  lemma PerformedIdles(h: Hub, g: Hub, i: nat, c: Control, ok: bool)
    requires i < 16 && h.slots[i].open && Performed(h, g, i, c, ok)
    ensures Idle(h, g) && (!ok ==> g.slots[i].open)
  {
    match RequestOf(c)
    case Play =>
      var t: nat :| Rumbled(h, g, i, c, t);
      RumbleOthers(h, g, i, c, t);
    case Stop => StopOthers(h, g, i);
    case _ =>
  }

  lemma CloseIdles(h: Hub, i: nat, now: nat)
    requires i < 16 && h.slots[i].open
    ensures Idle(h, CloseClient(h, i, now))
  {
    CloseOthers(h, i, now);
  }

  lemma ServedParses(h: Hub, g: Hub, i: nat, c: Control)
    requires i < 16 && h.slots[i].open && ParserInv(h) && Served(h, g, i, c)
    ensures ParserInv(g)
  {
    if Performed(h, g, i, c, true) {
      PerformedIdles(h, g, i, c, true);
      IdleKeeps(h, g);
    } else {
      var mid :| Performed(h, mid, i, c, false) && mid.clock <= g.clock && g == CloseClient(mid, i, g.clock);
      PerformedIdles(h, mid, i, c, false);
      IdleKeeps(h, mid);
      CloseIdles(mid, i, g.clock);
      IdleKeeps(mid, g);
    }
  }

  lemma ObeyParses(h: Hub, g: Hub, i: nat, c: Control)
    requires i < 16 && h.slots[i].open && ParserInv(h) && GoodHeader(c) && Obeyed(h, g, i, c)
    ensures ParserInv(g)
  {
    TakingParses(h.slots[i], c);
    ParsesKeep(h, Taken(h, i), i);
    ServedParses(Taken(h, i), g, i, c);
  }

  lemma HearParses(h: Hub, g: Hub, i: nat, chunk: seq<byte>)
    requires i < 16 && h.slots[i].open && ParserInv(h) && g == WithSlot(h, i, Hearing(h.slots[i], chunk))
    ensures ParserInv(g)
  {
    HearingParses(h.slots[i], chunk);
    ParsesKeep(h, g, i);
  }

  lemma AcceptParses(h: Hub, g: Hub, i: nat)
    requires ParserInv(h) && AcceptedAt(h, g, i)
    ensures ParserInv(g)
  {
    if i < 16 {
      ParsesKeep(h, g, i);
    }
  }

  lemma XiIdles(h: Hub, g: Hub, device: nat, source: nat, e: XiEvent, packet: seq<Record>)
    requires WellFormed(e) && XiProcessed(h, g, device, source, e, packet)
    ensures Idle(h, g)
  {
    if g != h.(pad := g.pad) {
      BroadcastIdles(h.(pad := g.pad), g, EventClient, Wrap(Events(packet)));
    }
  }

  lemma UpdateIdles(h: Hub, force: bool, now: nat)
    ensures Idle(h, UpdateRumble(h, force, now))
  {
    LapseQuiet(h, force, now);
  }

  lemma FlushIdles(h: Hub, g: Hub, i: nat)
    requires i < 16 && Flushed(h, g, i)
    ensures Idle(h, g)
  {}

  /** No whole command is waiting. */
  predicate Resting(h: Hub) { forall i :: 0 <= i < 16 ==> |h.slots[i].left| < CONTROL_SIZE }

  lemma IdleRests(h: Hub, g: Hub)
    requires Idle(h, g) && Resting(h)
    ensures Resting(g)
  {
    forall i | 0 <= i < 16 ensures |g.slots[i].left| < CONTROL_SIZE {
      assert Idles(h.slots[i], g.slots[i]);
    }
  }

  lemma ParsesRests(h: Hub, g: Hub, i: nat)
    requires i < 16 && Parses(h, g, i) && Resting(h) && |g.slots[i].left| < CONTROL_SIZE
    ensures Resting(g)
  {}

  lemma ParsesTransitive(h: Hub, g: Hub, k: Hub, i: nat)
    requires i < 16 && Parses(h, g, i) && Parses(g, k, i)
    ensures Parses(h, k, i)
  {
    forall j | 0 <= j < 16 && j != i ensures Idles(h.slots[j], k.slots[j]) {
      assert Idles(h.slots[j], g.slots[j]) && Idles(g.slots[j], k.slots[j]);
    }
  }

  lemma AcceptRests(h: Hub, g: Hub, i: nat)
    requires AcceptedAt(h, g, i) && Resting(h)
    ensures Resting(g)
  {}

  lemma StepParses(h: Hub, s: Step, g: Hub)
    requires ParserInv(h) && Next(h, s, g)
    ensures ParserInv(g)
  {
    match s
    case Xi(device, source, e) =>
      var packet :| XiProcessed(h, g, device, source, e, packet);
      XiIdles(h, g, device, source, e, packet);
      IdleKeeps(h, g);
    case Refresh(a) =>
      var mid :| Refreshed(h, mid, g, a);
      RefreshIdles(h, mid, g, a);
      IdleKeeps(h, g);
    case Accept =>
      var i: nat :| AcceptedAt(h, g, i);
      AcceptParses(h, g, i);
    case Flush(i) =>
      FlushIdles(h, g, i);
      IdleKeeps(h, g);
    case Hear(i, chunk) => HearParses(h, g, i, chunk);
    case Close(i) =>
      CloseIdles(h, i, g.clock);
      IdleKeeps(h, g);
    case Obey(i, c) => ObeyParses(h, g, i, c);
    case Update(force) =>
      UpdateIdles(h, force, g.clock);
      IdleKeeps(h, g);
  }

  lemma {:induction false} RunParses(p: seq<Hub>, h: Hub, g: Hub)
    requires ParserInv(h) && Path(p, h, g)
    ensures ParserInv(g)
  {
    if |p| > 1 {
      var n := |p| - 1;
      Shorten(p, h, g);
      RunParses(p[..n], h, p[n - 1]);
      var s :| Next(p[n - 1], s, g);
      StepParses(p[n - 1], s, g);
    }
  }

  lemma ReachesParses(h: Hub, g: Hub)
    requires ParserInv(h) && Reaches(h, g)
    ensures ParserInv(g)
  {
    var p :| Path(p, h, g);
    RunParses(p, h, g);
  }

  // ---------------------------------------------------------- one turn of the parser

  /** Some commands have been run; the last one failed, or a bad header has stopped the parser. */
  ghost predicate Advanced(s: Slot, t: Slot, ok: bool, good: bool) {
    match t
    case Slot(open, _, _, _, _, _, _, _, _, heard, left, ran) =>
      && ParserLaw(t)
      && heard == s.heard && s.ran <= ran
      && (!ok ==> open)
      && (!good ==> !ok && BadHeader(left))
  }

  ghost predicate Parsing(h: Hub, g: Hub, i: nat, ok: bool, good: bool)
    requires i < 16
  {
    Arrives(h, g, i, ok || !good) && Parses(h, g, i) && Advanced(h.slots[i], g.slots[i], ok, good)
  }

  lemma ParsingNone(h: Hub, i: nat)
    requires i < 16 && ParserLaw(h.slots[i])
    ensures Parsing(h, h, i, true, true)
  {
    Stays(h);
  }

  lemma TakenIs(h: Hub, i: nat)
    requires i < 16 && |h.slots[i].left| >= CONTROL_SIZE
    ensures var s, t := h.slots[i], Taken(h, i).slots[i];
      t.open == s.open && t.heard == s.heard && s.ran <= t.ran && |t.left| < |s.left|
    ensures Parses(h, Taken(h, i), i)
  {}

  /** One more command: obeyed, or the last. */
  lemma ParsingMore(h: Hub, g: Hub, k: Hub, i: nat, c: Control, ok: bool)
    requires i < 16 && Parsing(h, g, i, true, true) && g.slots[i].open
    requires GoodHeader(c) && Offers(g.slots[i], c) && Performed(Taken(g, i), k, i, c, ok)
    ensures Parsing(h, k, i, ok, true) && |k.slots[i].left| < |g.slots[i].left|
  {
    var t := Taken(g, i);
    TakenIs(g, i);
    TakingParses(g.slots[i], c);
    PerformedIdles(t, k, i, c, ok);
    assert Idles(t.slots[i], k.slots[i]);
    IdlesKeep(t.slots[i], k.slots[i]);
    ParsesTransitive(h, g, t, i);
    ParsesTransitive(h, t, k, i);
    if ok {
      assert Obeyed(g, k, i, c);
      ReachesMore(h, g, Obey(i, c), k);
    }
  }

  lemma ParsingStops(h: Hub, g: Hub, i: nat, c: Control)
    requires i < 16 && Parsing(h, g, i, true, true) && g.slots[i].open && Offers(g.slots[i], c) && !GoodHeader(c)
    ensures Parsing(h, g, i, false, false)
  {
    OffersDecoded(g.slots[i], c);
  }

  /**
   * One recv and everything parsed from it: the commands run are a beginning of the records of all
   * the client has sent, all of them when the client stays, and the parser stops early only at the
   * end of the stream, at a failed command or at a bad header of that whole stream.
   */
  ghost predicate Digested(s: Slot, t: Slot, chunk: seq<byte>, ok: bool, good: bool) {
    match t
    case Slot(open, _, _, _, _, _, _, _, _, heard, left, ran) =>
      && ParserLaw(t)
      && heard == s.heard + chunk && s.ran <= ran <= Records(heard, CONTROL_SIZE)
      && (ok ==> good && |left| < CONTROL_SIZE)
      && (ok && open ==> ran == Records(heard, CONTROL_SIZE))
      && (!good ==> !ok && (chunk == [] || BadCommandAt(heard, |ran|)))
      && (!ok ==> open)
  }

  ghost predicate Received(h: Hub, g: Hub, i: nat, chunk: seq<byte>, ok: bool, good: bool)
    requires i < 16
  {
    && Arrives(h, g, i, ok || !good)
    && Parses(h, g, i) && Digested(h.slots[i], g.slots[i], chunk, ok, good)
  }

  lemma DigestedNone(s: Slot, ok: bool)
    requires ParserLaw(s) && s.open && |s.left| < CONTROL_SIZE
    ensures Digested(s, s, [], ok, ok)
  {
    ParsesWholeStream(s);
    assert s.heard + [] == s.heard;
  }

  lemma ReceivedNone(h: Hub, i: nat, ok: bool)
    requires i < 16 && h.slots[i].open && ParserLaw(h.slots[i]) && |h.slots[i].left| < CONTROL_SIZE
    ensures Received(h, h, i, [], ok, ok)
  {
    Stays(h);
    DigestedNone(h.slots[i], ok);
  }

  lemma DigestedChunk(s: Slot, t: Slot, chunk: seq<byte>, ok: bool, good: bool)
    requires Advanced(Hearing(s, chunk), t, ok, good) && (ok ==> good && |t.left| < CONTROL_SIZE)
    ensures Digested(s, t, chunk, ok, good)
  {
    ParsesWholeStream(t);
  }

  lemma ParsesHeard(h: Hub, g: Hub, k: Hub, i: nat, chunk: seq<byte>)
    requires i < 16 && g == WithSlot(h, i, Hearing(h.slots[i], chunk)) && Parses(g, k, i)
    ensures Parses(h, k, i) && g.slots[i] == Hearing(h.slots[i], chunk)
  {
    ParsesTransitive(h, g, k, i);
  }

  /** What came in was put behind what was there, and parsed. */
  lemma ReceivedChunk(h: Hub, g: Hub, k: Hub, i: nat, chunk: seq<byte>, ok: bool, good: bool)
    requires i < 16 && h.slots[i].open && g == WithSlot(h, i, Hearing(h.slots[i], chunk))
    requires Parsing(g, k, i, ok, good) && (ok ==> good && |k.slots[i].left| < CONTROL_SIZE)
    ensures Received(h, k, i, chunk, ok, good)
  {
    ParsesHeard(h, g, k, i, chunk);
    DigestedChunk(h.slots[i], k.slots[i], chunk, ok, good);
    ArrivesHeard(h, g, k, i, chunk, ok || !good);
  }

  lemma ArrivesHeard(h: Hub, g: Hub, k: Hub, i: nat, chunk: seq<byte>, whole: bool)
    requires i < 16 && h.slots[i].open && g == WithSlot(h, i, Hearing(h.slots[i], chunk)) && Arrives(g, k, i, whole)
    ensures Arrives(h, k, i, whole)
  {
    Stays(h);
    ReachesMore(h, h, Step.Hear(i, chunk), g);
    ArrivesLater(h, g, k, i, whole);
  }

  /** When it is not ok the client is closed, and all of it is a run. */
  lemma ReceivedCloses(h: Hub, g: Hub, k: Hub, i: nat, chunk: seq<byte>, ok: bool, good: bool)
    requires i < 16 && Received(h, g, i, chunk, ok, good)
    requires g.clock <= k.clock && k == if ok then g else CloseClient(g, i, k.clock)
    ensures Reaches(h, k) && Parses(h, k, i) && |k.slots[i].left| < CONTROL_SIZE
  {
    if !ok {
      CloseIdles(g, i, k.clock);
      ParsesTransitive(h, g, k, i);
      assert Idles(g.slots[i], k.slots[i]);
      CloseOthers(g, i, k.clock);
      if good {
        DisobeyedReaches(h, g, i, k);
      } else {
        ReachesMore(h, g, Step.Close(i), k);
      }
    }
  }

  /**
   * In every reachable state, for every client: the commands obeyed since it connected have good
   * headers and are the parse of everything received from it, from the front and in order, all of
   * it when less than a command is left over, and a bad header waiting is the next one of it all.
   */
  lemma ReachableParses(init: Hub, h: Hub, i: nat)
    requires Initial(init) && Reaches(init, h) && i < 16
    ensures var s := h.slots[i];
      && s.ran <= Records(s.heard, CONTROL_SIZE)
      && (forall r :: r in s.ran ==> WellHeaded(r))
      && (s.open && |s.left| < CONTROL_SIZE ==>
            s.ran == Records(s.heard, CONTROL_SIZE) && s.left == Rest(s.heard, CONTROL_SIZE))
      && (s.open && BadHeader(s.left) ==> BadCommandAt(s.heard, |s.ran|))
  {
    ReachesParses(init, h);
    ParsesWholeStream(h.slots[i]);
  }
}
