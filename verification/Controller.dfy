/** The controller's state, the evdev events that describe it, and the replica a client folds them into. */
module Controller {
  import opened Bytes
  import opened Protocol

  type Axes = s: seq<s32> | |s| == 6 witness [0, 0, 0, 0, 0, 0]
  type Bits = s: seq<bool> | |s| == 16 witness seq(16, _ => false)

  /** The bridge's state; bit d - 1 of the button word is entry d - 1 of buttons. */
  datatype Pad = Pad(axes: Axes, buttons: Bits, hatX: s32, hatY: s32)

  const NO_BUTTONS: Bits := [
    false, false, false, false, false, false, false, false,
    false, false, false, false, false, false, false, false]

  const ZERO_PAD: Pad := Pad([0, 0, 0, 0, 0, 0], NO_BUTTONS, 0, 0)

  function Clamp(v: int, lo: int, hi: int): (r: int)
    requires lo <= hi
    ensures lo <= r <= hi
  {
    if v < lo then lo else if v > hi then hi else v
  }

  function ConvertAxis(axis: nat, v: int): (r: s32)
    ensures InRange(axis, r)
  {
    if axis < 4 then Clamp(v, -32768, 32767)
    else (Clamp(v, 0, 32767) * 255 + 16383) / 32767
  }

  predicate InRange(axis: nat, v: int) {
    if axis < 4 then -32768 <= v <= 32767 else 0 <= v <= 255
  }

  function Bit(b: bool): s32 { if b then 1 else 0 }

  function HatValue(buttons: Bits, negative: nat, positive: nat): s32
    requires 1 <= negative <= 16 && 1 <= positive <= 16
  {
    Bit(buttons[positive - 1]) - Bit(buttons[negative - 1])
  }

  /** What every step of the bridge keeps about its own state. */
  ghost predicate ValidPad(p: Pad) {
    && (forall a :: 0 <= a < 6 ==> InRange(a, p.axes[a]))
    && p.hatX == HatValue(p.buttons, 13, 14)
    && p.hatY == HatValue(p.buttons, 11, 12)
  }

  // ----------------------------------------------------------------- XI2 events

  datatype XiEvent =
    | Motion(mask: seq<bool>, values: seq<int>)
    | Button(detail: nat, pressed: bool)

  /** A valuator mask carries one value per set bit; this is how many come before bit a. */
  function Rank(mask: seq<bool>, a: nat): (n: nat)
    requires a <= |mask|
    ensures n <= a
  {
    if a == 0 then 0 else Rank(mask, a - 1) + (if mask[a - 1] then 1 else 0)
  }

  lemma {:induction false} RankGrows(mask: seq<bool>, a: nat, b: nat)
    requires a <= b <= |mask|
    ensures Rank(mask, a) <= Rank(mask, b)
    ensures a < b && mask[a] ==> Rank(mask, a) < Rank(mask, b)
    decreases b - a
  {
    if a < b {
      RankGrows(mask, a + 1, b);
    }
  }

  ghost predicate WellFormed(e: XiEvent) {
    e.Motion? ==> |e.values| == Rank(e.mask, |e.mask|)
  }

  ghost function MovedAxes(was: Axes, mask: seq<bool>, values: seq<int>): Axes
    requires |values| == Rank(mask, |mask|)
  {
    seq(6, a requires 0 <= a < 6 =>
      if a < |mask| && mask[a] then (RankGrows(mask, a, |mask|); ConvertAxis(a, values[Rank(mask, a)]))
      else was[a])
  }

  ghost function NextPad(p: Pad, e: XiEvent): Pad
    requires WellFormed(e)
  {
    match e
    case Motion(mask, values) => p.(axes := MovedAxes(p.axes, mask, values))
    case Button(d, pressed) =>
      if 1 <= d <= 16 then
        var b: Bits := p.buttons[d - 1 := pressed];
        Pad(p.axes, b, HatValue(b, 13, 14), HatValue(b, 11, 12))
      else p
  }

  lemma NextPadValid(p: Pad, e: XiEvent)
    requires ValidPad(p) && WellFormed(e)
    ensures ValidPad(NextPad(p, e))
  {}

  // ---------------------------------------------------------------------- cells

  /** Everything a client can observe, in the order of the snapshot: 6 axes, 2 hats, 12 buttons. */
  type Cells = s: seq<s32> | |s| == 20 witness seq(20, _ => 0)

  const CELL_CODES: seq<u16> := [
    ABS_X, ABS_Y, ABS_RX, ABS_RY, ABS_Z, ABS_RZ, ABS_HAT0X, ABS_HAT0Y,
    BTN_SOUTH, BTN_EAST, BTN_NORTH, BTN_WEST, BTN_TL, BTN_TR, BTN_SELECT, BTN_START,
    BTN_THUMBL, BTN_THUMBR, BTN_MODE, BTN_C]

  /** The XI2 buttons behind the twelve button cells: 1 to 10, 15 and 16. */
  function Detail(k: nat): (d: nat)
    requires k < 12
    ensures 1 <= d <= 16 && !(11 <= d <= 14)
  {
    if k < 10 then k + 1 else k + 5
  }

  function Cell(p: Pad, c: nat): s32
    requires c < 20
  {
    if c < 6 then p.axes[c]
    else if c == 6 then p.hatX
    else if c == 7 then p.hatY
    else Bit(p.buttons[Detail(c - 8) - 1])
  }

  function Wire(p: Pad): (w: Cells)
    ensures forall c :: 0 <= c < 20 ==> w[c] == Cell(p, c)
  {
    seq(20, c requires 0 <= c < 20 => Cell(p, c))
  }

  function CellEvent(c: nat, v: s32): Event
    requires c < 20
  {
    Event(if c < 8 then EV_ABS else EV_KEY, CELL_CODES[c], v)
  }

  function AxisIndex(code: u16): int {
    if code == ABS_X then 0 else if code == ABS_Y then 1 else if code == ABS_RX then 2
    else if code == ABS_RY then 3 else if code == ABS_Z then 4 else if code == ABS_RZ then 5
    else if code == ABS_HAT0X then 6 else if code == ABS_HAT0Y then 7 else -1
  }

  function ButtonIndex(code: u16): int {
    if code == BTN_SOUTH then 0 else if code == BTN_EAST then 1 else if code == BTN_NORTH then 2
    else if code == BTN_WEST then 3 else if code == BTN_TL then 4 else if code == BTN_TR then 5
    else if code == BTN_SELECT then 6 else if code == BTN_START then 7 else if code == BTN_THUMBL then 8
    else if code == BTN_THUMBR then 9 else if code == BTN_MODE then 10 else if code == BTN_C then 11 else -1
  }

  /** The cell an event speaks about, or -1. */
  function CellOf(e: Event): (c: int)
    ensures -1 <= c < 20
  {
    if e.kind == EV_ABS then AxisIndex(e.code)
    else if e.kind == EV_KEY && ButtonIndex(e.code) >= 0 then 8 + ButtonIndex(e.code)
    else -1
  }

  lemma CellOfCellEvent(c: nat, v: s32)
    requires c < 20
    ensures CellOf(CellEvent(c, v)) == c
  {}

  function Assign(w: Cells, e: Event): Cells {
    if CellOf(e) >= 0 then w[CellOf(e) := e.value] else w
  }

  function Fold(w: Cells, es: seq<Event>): Cells {
    if es == [] then w else Assign(Fold(w, es[..|es| - 1]), es[|es| - 1])
  }

  lemma {:induction false} FoldAppend(w: Cells, a: seq<Event>, b: seq<Event>)
    ensures Fold(w, a + b) == Fold(Fold(w, a), b)
  {
    if b == [] {
      assert a + b == a;
    } else {
      FoldAppend(w, a, b[..|b| - 1]);
      assert (a + b)[..|a + b| - 1] == a + b[..|b| - 1];
    }
  }

  /** The cells below n whose value differs, in order. */
  function Changes(was: Cells, now: Cells, n: nat): (es: seq<Event>)
    requires n <= 20
    ensures |es| <= n
    ensures es == [] <==> was[..n] == now[..n]
  {
    if n == 0 then []
    else
      assert was[..n] == was[..n - 1] + [was[n - 1]] && now[..n] == now[..n - 1] + [now[n - 1]];
      Changes(was, now, n - 1) + (if was[n - 1] != now[n - 1] then [CellEvent(n - 1, now[n - 1])] else [])
  }

  /** The packet that takes a client from one state to the next: nothing at all when no cell changed. */
  function Packet(was: Pad, now: Pad): seq<Event> {
    var es := Changes(Wire(was), Wire(now), 20);
    if es == [] then [] else es + [SYN]
  }

  function AllCells(w: Cells, n: nat): (es: seq<Event>)
    requires n <= 20
    ensures |es| == n
    ensures forall c :: 0 <= c < n ==> es[c] == CellEvent(c, w[c])
  {
    if n == 0 then [] else AllCells(w, n - 1) + [CellEvent(n - 1, w[n - 1])]
  }

  function Snapshot(p: Pad): seq<Event> {
    AllCells(Wire(p), 20) + [SYN]
  }

  lemma CellsStep(was: Cells, now: Cells, n: nat)
    requires 0 < n <= 20
    ensures (now[..n - 1] + was[n - 1..])[n - 1 := now[n - 1]] == now[..n] + was[n..]
    ensures was[n - 1] == now[n - 1] ==> now[..n - 1] + was[n - 1..] == now[..n] + was[n..]
  {}

  lemma {:induction false} FoldChanges(was: Cells, now: Cells, n: nat)
    requires n <= 20
    ensures Fold(was, Changes(was, now, n)) == now[..n] + was[n..]
  {
    if n > 0 {
      FoldChanges(was, now, n - 1);
      CellsStep(was, now, n);
      var es := Changes(was, now, n - 1);
      if was[n - 1] != now[n - 1] {
        CellOfCellEvent(n - 1, now[n - 1]);
        assert (es + [CellEvent(n - 1, now[n - 1])])[..|es|] == es;
      } else {
        assert es + [] == es;
      }
    }
  }

  lemma {:induction false} FoldAllCells(was: Cells, w: Cells, n: nat)
    requires n <= 20
    ensures Fold(was, AllCells(w, n)) == w[..n] + was[n..]
  {
    if n > 0 {
      FoldAllCells(was, w, n - 1);
      CellsStep(was, w, n);
      CellOfCellEvent(n - 1, w[n - 1]);
      assert AllCells(w, n)[..n - 1] == AllCells(w, n - 1);
    }
  }

  lemma FoldSyn(w: Cells, es: seq<Event>)
    ensures Fold(w, es + [SYN]) == Fold(w, es)
  {
    assert (es + [SYN])[..|es|] == es;
  }

  /** A snapshot overwrites whatever the client knew before. */
  lemma SnapshotDetermines(w: Cells, p: Pad)
    ensures Fold(w, Snapshot(p)) == Wire(p)
  {
    FoldAllCells(w, Wire(p), 20);
    FoldSyn(w, AllCells(Wire(p), 20));
  }

  lemma PacketAdvances(was: Pad, now: Pad)
    ensures Fold(Wire(was), Packet(was, now)) == Wire(now)
  {
    FoldChanges(Wire(was), Wire(now), 20);
    FoldSyn(Wire(was), Changes(Wire(was), Wire(now), 20));
  }

  /** Cell c is reported in es. */
  predicate Mentioned(c: int, es: seq<Event>) { exists n :: 0 <= n < |es| && CellOf(es[n]) == c }

  lemma MentionedLast(c: int, es: seq<Event>)
    requires es != []
    ensures Mentioned(c, es) <==> Mentioned(c, es[..|es| - 1]) || CellOf(es[|es| - 1]) == c
  {
    var front := es[..|es| - 1];
    if Mentioned(c, front) {
      var n :| 0 <= n < |front| && CellOf(front[n]) == c;
      assert es[n] == front[n];
    }
    if Mentioned(c, es) {
      var n :| 0 <= n < |es| && CellOf(es[n]) == c;
      assert n < |front| ==> front[n] == es[n];
    }
  }

  /** Two readers of one stream agree on exactly the cells it reports or they agreed on before. */
  lemma {:induction false} FoldCell(v: Cells, w: Cells, es: seq<Event>, c: nat)
    requires c < 20
    ensures Mentioned(c, es) ==> Fold(v, es)[c] == Fold(w, es)[c]
    ensures !Mentioned(c, es) ==> Fold(v, es)[c] == v[c] && Fold(w, es)[c] == w[c]
  {
    if es != [] {
      FoldCell(v, w, es[..|es| - 1], c);
      MentionedLast(c, es);
    }
  }

  // -------------------------------------------------------- the library's replica

  datatype Shape = Shape(axes: seq<s16>, buttons: Bits, hatX: int, hatY: int)

  /** The library's state: the mirrored controls and the 32-bit packet counter. */
  datatype Replica = Replica(shape: Shape, packet: u32)

  const RESET_SHAPE: Shape := Shape([0, 0, 0, 0, -32768, -32768], NO_BUTTONS, 0, 0)
  const RESET: Replica := Replica(RESET_SHAPE, 0)

  predicate IsReport(e: Event) { e.kind == EV_SYN && e.code == SYN_REPORT }

  function SetAxis(s: Shape, index: nat, v: s16): Shape {
    if index < |s.axes| then s.(axes := s.axes[index := v]) else s
  }

  function TriggerValue(v: int): s16 { ToInt16(v * 257 - 32768) }

  /** One event applied to the replica, as the library's process_event does it. */
  function ProcessShape(s: Shape, e: Event): Shape {
    if e.kind == EV_ABS then
      if e.code == ABS_X then SetAxis(s, 0, ToInt16(e.value))
      else if e.code == ABS_Y then SetAxis(s, 1, ToInt16(e.value))
      else if e.code == ABS_RX then SetAxis(s, 2, ToInt16(e.value))
      else if e.code == ABS_RY then SetAxis(s, 3, ToInt16(e.value))
      else if e.code == ABS_Z then SetAxis(s, 4, TriggerValue(e.value))
      else if e.code == ABS_RZ then SetAxis(s, 5, TriggerValue(e.value))
      else if e.code == ABS_HAT0X then s.(hatX := ToInt8(e.value))
      else if e.code == ABS_HAT0Y then s.(hatY := ToInt8(e.value))
      else s
    else if e.kind == EV_KEY then
      var index := ButtonIndex(e.code);
      if index >= 0 then s.(buttons := s.buttons[index := e.value != 0]) else s
    else s
  }

  function ProcessEvent(r: Replica, e: Event): Replica {
    Replica(ProcessShape(r.shape, e), if IsReport(e) then (r.packet + 1) % 0x1_0000_0000 else r.packet)
  }

  function Replay(r: Replica, es: seq<Event>): Replica {
    if es == [] then r else ProcessEvent(Replay(r, es[..|es| - 1]), es[|es| - 1])
  }

  function Reports(es: seq<Event>): nat {
    if es == [] then 0 else Reports(es[..|es| - 1]) + (if IsReport(es[|es| - 1]) then 1 else 0)
  }

  lemma {:induction false} ReplayAppend(r: Replica, a: seq<Event>, b: seq<Event>)
    ensures Replay(r, a + b) == Replay(Replay(r, a), b)
    ensures Reports(a + b) == Reports(a) + Reports(b)
  {
    if b == [] {
      assert a + b == a;
    } else {
      ReplayAppend(r, a, b[..|b| - 1]);
      assert (a + b)[..|a + b| - 1] == a + b[..|b| - 1];
    }
  }

  /** The library's controls as a function of the cells, for any cell values at all. */
  function LibOf(w: Cells): Shape {
    Shape([ToInt16(w[0]), ToInt16(w[1]), ToInt16(w[2]), ToInt16(w[3]),
           TriggerValue(w[4]), TriggerValue(w[5])],
          seq(16, k requires 0 <= k < 16 => k < 12 && w[8 + k] != 0),
          ToInt8(w[6]), ToInt8(w[7]))
  }

  function View(p: Pad): Shape { LibOf(Wire(p)) }

  lemma ProcessCommutes(w: Cells, e: Event)
    ensures ProcessShape(LibOf(w), e) == LibOf(Assign(w, e))
  {
    var l, r := ProcessShape(LibOf(w), e), LibOf(Assign(w, e));
    assert l.axes == r.axes;
    assert l.buttons == r.buttons;
  }

  lemma {:induction false} ReplayCommutes(w: Cells, r: Replica, es: seq<Event>)
    requires r.shape == LibOf(w)
    ensures Replay(r, es).shape == LibOf(Fold(w, es))
  {
    if es != [] {
      var front := es[..|es| - 1];
      ReplayCommutes(w, r, front);
      ProcessCommutes(Fold(w, front), es[|es| - 1]);
    }
  }

  /** The 32-bit counter counts the SYN_REPORTs, whatever else the events say. */
  lemma {:induction false} ReplayCounts(r: Replica, es: seq<Event>)
    ensures Replay(r, es).packet == (r.packet + Reports(es)) % 0x1_0000_0000
  {
    if es != [] {
      ReplayCounts(r, es[..|es| - 1]);
    }
  }

  /** What the view of a state the bridge can be in really is: no cast wraps. */
  lemma ViewExplicit(p: Pad)
    requires ValidPad(p)
    ensures View(p).axes == p.axes[..4] + [p.axes[4] * 257 - 32768, p.axes[5] * 257 - 32768]
    ensures View(p).hatX == p.hatX && View(p).hatY == p.hatY
    ensures forall k :: 0 <= k < 12 ==> View(p).buttons[k] == p.buttons[Detail(k) - 1]
    ensures forall k :: 12 <= k < 16 ==> !View(p).buttons[k]
  {
    assert forall a :: 0 <= a < 6 ==> InRange(a, p.axes[a]) && Wire(p)[a] == p.axes[a];
    assert -1 <= p.hatX <= 1 && -1 <= p.hatY <= 1;
    assert Wire(p)[6] == p.hatX && Wire(p)[7] == p.hatY;
  }

  /** The library's reset state is exactly the view of the bridge's zeroed state. */
  lemma ResetIsViewOfZero()
    ensures ValidPad(ZERO_PAD) && View(ZERO_PAD) == RESET_SHAPE
  {
    assert View(ZERO_PAD).axes == RESET_SHAPE.axes;
    assert View(ZERO_PAD).buttons == RESET_SHAPE.buttons;
  }

  lemma ReplayFromReset(es: seq<Event>)
    ensures Replay(RESET, es).shape == LibOf(Fold(Wire(ZERO_PAD), es))
  {
    ResetIsViewOfZero();
    ReplayCommutes(Wire(ZERO_PAD), RESET, es);
  }

  // -------------------------------------------------- a whole run of one connection

  ghost function PadAfter(p: Pad, run: seq<XiEvent>): Pad
    requires forall e :: e in run ==> WellFormed(e)
  {
    if run == [] then p else NextPad(PadAfter(p, run[..|run| - 1]), run[|run| - 1])
  }

  /** The snapshot sent at p, followed by the packets of a run of XI2 events. */
  ghost function Stream(p: Pad, run: seq<XiEvent>): seq<Event>
    requires forall e :: e in run ==> WellFormed(e)
  {
    if run == [] then Snapshot(p)
    else
      var front := run[..|run| - 1];
      Stream(p, front) + Packet(PadAfter(p, front), NextPad(PadAfter(p, front), run[|run| - 1]))
  }

  lemma {:induction false} StreamCells(w: Cells, p: Pad, run: seq<XiEvent>)
    requires forall e :: e in run ==> WellFormed(e)
    ensures Fold(w, Stream(p, run)) == Wire(PadAfter(p, run))
  {
    if run == [] {
      SnapshotDetermines(w, p);
    } else {
      var front := run[..|run| - 1];
      StreamCells(w, p, front);
      var before := PadAfter(p, front);
      var after := NextPad(before, run[|run| - 1]);
      FoldAppend(w, Stream(p, front), Packet(before, after));
      PacketAdvances(before, after);
    }
  }

  lemma ReplayIsView(p: Pad, run: seq<XiEvent>)
    requires forall e :: e in run ==> WellFormed(e)
    ensures Replay(RESET, Stream(p, run)).shape == View(PadAfter(p, run))
  {
    ReplayFromReset(Stream(p, run));
    StreamCells(Wire(ZERO_PAD), p, run);
  }

  /**
   * Packet by packet: a client that asked once, at any moment p, holds the bridge's state just
   * after the k-th event, for every k, once it has folded the packets up to there.
   */
  lemma PacketSimulation(p: Pad, run: seq<XiEvent>, k: nat)
    requires k <= |run| && forall e :: e in run ==> WellFormed(e)
    ensures Replay(RESET, Stream(p, run[..k])).shape == View(PadAfter(p, run[..k]))
    ensures Stream(p, run[..k]) <= Stream(p, run)
  {
    StreamGrows(p, run, k);
    ReplayIsView(p, run[..k]);
  }

  lemma {:induction false} StreamGrows(p: Pad, run: seq<XiEvent>, k: nat)
    requires k <= |run| && forall e :: e in run ==> WellFormed(e)
    ensures Stream(p, run[..k]) <= Stream(p, run)
    decreases |run|
  {
    if k == |run| {
      assert run[..k] == run;
    } else {
      StreamGrows(p, run[..|run| - 1], k);
      assert run[..|run| - 1][..k] == run[..k];
    }
  }

  // ------------------------------------------------------------------ minimality

  /** Every event of the list changes the library's controls when its turn comes. */
  ghost predicate EachCounts(w: Cells, es: seq<Event>) {
    es == [] || (EachCounts(w, es[..|es| - 1]) && LibOf(Fold(w, es)) != LibOf(Fold(w, es[..|es| - 1])))
  }

  ghost predicate CellInRange(c: nat, v: int) {
    if c < 4 then -32768 <= v <= 32767 else if c < 6 then 0 <= v <= 255
    else if c < 8 then -1 <= v <= 1 else 0 <= v <= 1
  }

  lemma WireInRange(p: Pad)
    requires ValidPad(p)
    ensures forall c :: 0 <= c < 20 ==> CellInRange(c, Wire(p)[c])
  {
    assert forall a :: 0 <= a < 6 ==> Wire(p)[a] == p.axes[a] && InRange(a, p.axes[a]);
    assert Wire(p)[6] == p.hatX && Wire(p)[7] == p.hatY;
  }

  /** The view forgets nothing about the cells of a valid state. */
  lemma ViewSeparates(v: Cells, w: Cells, c: nat)
    requires c < 20 && CellInRange(c, v[c]) && CellInRange(c, w[c]) && v[c] != w[c]
    ensures LibOf(v) != LibOf(w)
  {
    if c < 4 {
      assert LibOf(v).axes[c] == v[c] && LibOf(w).axes[c] == w[c];
    } else if c < 6 {
      assert LibOf(v).axes[c] == v[c] * 257 - 32768 && LibOf(w).axes[c] == w[c] * 257 - 32768;
    } else if c >= 8 {
      assert LibOf(v).buttons[c - 8] == (v[c] != 0) && LibOf(w).buttons[c - 8] == (w[c] != 0);
    }
  }

  lemma {:induction false} ChangesCount(was: Cells, now: Cells, n: nat)
    requires n <= 20
    requires forall c :: 0 <= c < 20 ==> CellInRange(c, was[c]) && CellInRange(c, now[c])
    ensures EachCounts(was, Changes(was, now, n))
  {
    if n > 0 {
      ChangesCount(was, now, n - 1);
      FoldChanges(was, now, n - 1);
      FoldChanges(was, now, n);
      var es := Changes(was, now, n - 1);
      if was[n - 1] != now[n - 1] {
        assert Changes(was, now, n)[..|es|] == es;
        ViewSeparates(Fold(was, es), Fold(was, Changes(was, now, n)), n - 1);
      } else {
        assert es + [] == es;
      }
    }
  }

  /** A packet is sent exactly when a client could tell the difference, ... */
  lemma SilentIffInvisible(was: Pad, now: Pad)
    requires ValidPad(was) && ValidPad(now)
    ensures Packet(was, now) == [] <==> View(was) == View(now)
  {
    WireInRange(was);
    WireInRange(now);
    var v, w := Wire(was), Wire(now);
    assert v[..20] == v && w[..20] == w;
    if v != w {
      var c :| 0 <= c < 20 && v[c] != w[c];
      ViewSeparates(v, w, c);
    }
  }

  /** ... and holds nothing superfluous. */
  lemma DeltaMinimal(was: Pad, now: Pad)
    requires ValidPad(was) && ValidPad(now) && Packet(was, now) != []
    ensures var n := |Packet(was, now)| - 1;
      Packet(was, now)[n] == SYN && EachCounts(Wire(was), Packet(was, now)[..n])
  {
    WireInRange(was);
    WireInRange(now);
    var es := Changes(Wire(was), Wire(now), 20);
    ChangesCount(Wire(was), Wire(now), 20);
    assert (es + [SYN])[..|es|] == es;
  }

  // -------------------------------------------------------------------- triggers

  /** The 15-bit valuator is rounded to the nearest of 256 steps; a tie cannot occur. */
  lemma TriggerNearest(axis: nat, v: int)
    requires axis >= 4 && 0 <= v <= 32767
    ensures var t := ConvertAxis(axis, v);
      -16383 <= 32767 * t - 255 * v <= 16383
  {}

  lemma TriggerMonotone(axis: nat, u: int, v: int)
    requires axis >= 4 && u <= v
    ensures ConvertAxis(axis, u) <= ConvertAxis(axis, v)
  {
    assert Clamp(u, 0, 32767) <= Clamp(v, 0, 32767);
  }

  lemma TriggerOnto(axis: nat, t: nat) returns (v: int)
    requires axis >= 4 && t <= 255
    ensures 0 <= v <= 32767 && ConvertAxis(axis, v) == t
  {
    v := 32767 * t / 255;
  }

  /** From valuator to the library's signed axis: fits, keeps order, reaches both ends, stays near. */
  lemma TriggerEndToEnd(axis: nat, u: int, v: int)
    requires axis >= 4 && 0 <= u <= v <= 32767
    ensures var f := (x: int) => ToInt16(ConvertAxis(axis, x) * 257 - 32768);
      && f(u) <= f(v)
      && f(0) == -32768 && f(32767) == 32767
      && -257 * 16383 <= 32767 * (f(v) + 32768) - 65535 * v <= 257 * 16383
  {
    TriggerMonotone(axis, u, v);
    TriggerNearest(axis, v);
    var t := ConvertAxis(axis, v);
    assert ToInt16(t * 257 - 32768) == t * 257 - 32768;
    assert 32767 * (t * 257) - 65535 * v == 257 * (32767 * t - 255 * v);
  }
}
