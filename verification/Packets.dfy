/** How the bridge builds its packets: the full snapshot, and the deltas of XI2 events. */
module Packets {
  import opened Bytes
  import opened Protocol
  import opened Controller

  const PACKET_LIMIT := 16
  const SNAPSHOT_LIMIT := 24

  /** Every event carries the time at which it was appended. */
  method AppendEvent(events: seq<Record>, kind: u16, code: u16, value: s32) returns (r: seq<Record>)
    ensures Bodies(r) == Bodies(events) + [Event(kind, code, value)]
  {
    var time: Stamp := *;
    r := events + [Record(time, Event(kind, code, value))];
  }

  method AppendCell(events: seq<Record>, c: nat, v: s32) returns (r: seq<Record>)
    requires c < 20
    ensures Bodies(r) == Bodies(events) + [CellEvent(c, v)]
  {
    r := AppendEvent(events, if c < 8 then EV_ABS else EV_KEY, CELL_CODES[c], v);
  }

  method BuildSnapshot(pad: Pad) returns (events: seq<Record>)
    ensures Bodies(events) == Snapshot(pad) && |events| <= SNAPSHOT_LIMIT
  {
    ghost var w := Wire(pad);
    events := [];
    for i := 0 to 6
      invariant Bodies(events) == AllCells(w, i)
    {
      events := AppendCell(events, i, pad.axes[i]);
    }
    events := AppendCell(events, 6, pad.hatX);
    events := AppendCell(events, 7, pad.hatY);
    for i := 0 to 12
      invariant Bodies(events) == AllCells(w, 8 + i)
    {
      events := AppendCell(events, 8 + i, Bit(pad.buttons[Detail(i) - 1]));
    }
    events := AppendEvent(events, EV_SYN, SYN_REPORT, 0);
  }

  /** Beyond the last difference no cell changes. */
  lemma {:induction false} ChangesStop(was: Cells, now: Cells, n: nat, m: nat)
    requires n <= m <= 20
    requires forall c :: n <= c < m ==> was[c] == now[c]
    ensures Changes(was, now, m) == Changes(was, now, n)
  {
    if n < m {
      ChangesStop(was, now, n, m - 1);
    }
  }

  lemma ChangesSingle(was: Cells, now: Cells, c: nat)
    requires c < 20 && was[c] != now[c]
    requires forall d :: 0 <= d < 20 && d != c ==> was[d] == now[d]
    ensures Changes(was, now, 20) == [CellEvent(c, now[c])]
  {
    ChangesStop(was, now, c + 1, 20);
    ChangesStop(was, now, 0, c);
  }

  /** The axis part of the delta, axis by axis. */
  ghost function AxisChanges(was: Axes, now: Axes, n: nat): (es: seq<Event>)
    requires n <= 6
    ensures |es| <= n
  {
    if n == 0 then []
    else AxisChanges(was, now, n - 1) + (if was[n - 1] != now[n - 1] then [CellEvent(n - 1, now[n - 1])] else [])
  }

  lemma {:induction false} AxisChangesPrefix(pad: Pad, axes: Axes, n: nat)
    requires n <= 6
    ensures Changes(Wire(pad), Wire(pad.(axes := axes)), n) == AxisChanges(pad.axes, axes, n)
  {
    if n > 0 {
      AxisChangesPrefix(pad, axes, n - 1);
      assert Wire(pad)[n - 1] == pad.axes[n - 1] && Wire(pad.(axes := axes))[n - 1] == axes[n - 1];
    }
  }

  lemma AxisChangesAll(pad: Pad, axes: Axes)
    ensures Changes(Wire(pad), Wire(pad.(axes := axes)), 20) == AxisChanges(pad.axes, axes, 6)
  {
    AxisChangesPrefix(pad, axes, 6);
    ChangesStop(Wire(pad), Wire(pad.(axes := axes)), 6, 20);
  }

  /** Past the mask, or past the sixth axis, nothing is compared any more. */
  lemma {:induction false} AxisChangesStop(was: Axes, now: Axes, n: nat)
    requires n <= 6
    requires forall a :: n <= a < 6 ==> was[a] == now[a]
    ensures AxisChanges(was, now, 6) == AxisChanges(was, now, n)
    decreases 6 - n
  {
    if n < 6 {
      AxisChangesStop(was, now, n + 1);
    }
  }

  /** Walks the valuator mask; values of axes beyond the sixth are skipped, not compared. */
  method MoveAxes(was: Axes, mask: seq<bool>, values: seq<int>) returns (axes: Axes, events: seq<Record>)
    requires |values| == Rank(mask, |mask|)
    ensures axes == MovedAxes(was, mask, values)
    ensures Bodies(events) == AxisChanges(was, axes, 6) && |events| <= 6
  {
    ghost var target := MovedAxes(was, mask, values);
    axes, events := was, [];
    var axis, next := 0, 0;
    while axis < |mask|
      invariant 0 <= axis <= |mask| && next == Rank(mask, axis)
      invariant forall a :: 0 <= a < 6 ==> axes[a] == if a < axis then target[a] else was[a]
      invariant Bodies(events) == AxisChanges(was, target, if axis < 6 then axis else 6)
    {
      if mask[axis] {
        RankGrows(mask, axis, |mask|);
        if axis < 6 {
          var converted := ConvertAxis(axis, values[next]);
          if converted != axes[axis] {
            axes := axes[axis := converted];
            events := AppendCell(events, axis, converted);
          }
        }
        next := next + 1;
      }
      axis := axis + 1;
    }
    assert axes == target;
    AxisChangesStop(was, target, if axis < 6 then axis else 6);
  }

  /** evdev codes of the XI2 buttons; 11 to 14 are the hat's directions. */
  const BUTTON_CODES: seq<u16> := [
    0, BTN_SOUTH, BTN_EAST, BTN_NORTH, BTN_WEST, BTN_TL, BTN_TR, BTN_SELECT, BTN_START,
    BTN_THUMBL, BTN_THUMBR, 0, 0, 0, 0, BTN_MODE, BTN_C]

  function ButtonCell(detail: nat): (c: nat)
    requires 1 <= detail <= 16 && !(11 <= detail <= 14)
    ensures 8 <= c < 20 && Detail(c - 8) == detail && CELL_CODES[c] == BUTTON_CODES[detail] != 0
  {
    if detail <= 10 then 7 + detail else 3 + detail
  }

  /** A plain button changes its own cell and no other. */
  lemma KeyDelta(pad: Pad, detail: nat, pressed: bool)
    requires ValidPad(pad) && 1 <= detail <= 16 && !(11 <= detail <= 14) && pad.buttons[detail - 1] != pressed
    ensures var p, c := NextPad(pad, Button(detail, pressed)), ButtonCell(detail);
      && p == pad.(buttons := pad.buttons[detail - 1 := pressed])
      && Changes(Wire(pad), Wire(p), 20) == [CellEvent(c, Bit(pressed))]
  {
    var p, c := NextPad(pad, Button(detail, pressed)), ButtonCell(detail);
    assert forall d :: 0 <= d < 20 && d != c ==> Cell(pad, d) == Cell(p, d);
    ChangesSingle(Wire(pad), Wire(p), c);
  }

  /** A direction of the hat changes that axis of the hat and nothing else. */
  lemma HatDelta(pad: Pad, detail: nat, pressed: bool)
    requires ValidPad(pad) && 11 <= detail <= 14 && pad.buttons[detail - 1] != pressed
    ensures var p := NextPad(pad, Button(detail, pressed));
      if detail >= 13 then
        p.hatX != pad.hatX && p.hatY == pad.hatY && Changes(Wire(pad), Wire(p), 20) == [CellEvent(6, p.hatX)]
      else
        p.hatX == pad.hatX && p.hatY != pad.hatY && Changes(Wire(pad), Wire(p), 20) == [CellEvent(7, p.hatY)]
  {
    var p, c := NextPad(pad, Button(detail, pressed)), if detail >= 13 then 6 else 7;
    assert forall d :: 0 <= d < 20 && d != c ==> Cell(pad, d) == Cell(p, d);
    ChangesSingle(Wire(pad), Wire(p), c);
  }

  method PressHat(pad: Pad, buttons: Bits) returns (p: Pad, events: seq<Record>)
    ensures p == Pad(pad.axes, buttons, HatValue(buttons, 13, 14), HatValue(buttons, 11, 12))
    ensures Bodies(events) ==
      (if p.hatX != pad.hatX then [Event(EV_ABS, ABS_HAT0X, p.hatX)] else []) +
      (if p.hatY != pad.hatY then [Event(EV_ABS, ABS_HAT0Y, p.hatY)] else [])
  {
    p, events := pad.(buttons := buttons), [];
    var x, y := HatValue(buttons, 13, 14), HatValue(buttons, 11, 12);
    if x != p.hatX {
      p := p.(hatX := x);
      events := AppendEvent(events, EV_ABS, ABS_HAT0X, x);
    }
    if y != p.hatY {
      p := p.(hatY := y);
      events := AppendEvent(events, EV_ABS, ABS_HAT0Y, y);
    }
  }

  method PressButton(pad: Pad, detail: nat, pressed: bool) returns (p: Pad, events: seq<Record>)
    requires ValidPad(pad)
    ensures p == NextPad(pad, Button(detail, pressed))
    ensures Bodies(events) == Changes(Wire(pad), Wire(p), 20) && |events| <= 1
  {
    p, events := pad, [];
    if detail < 1 || detail > 16 || pad.buttons[detail - 1] == pressed {
      ChangesStop(Wire(pad), Wire(p), 0, 20);
      return;
    }
    var buttons: Bits := pad.buttons[detail - 1 := pressed];
    if 11 <= detail <= 14 {
      HatDelta(pad, detail, pressed);
      p, events := PressHat(pad, buttons);
    } else {
      KeyDelta(pad, detail, pressed);
      p := pad.(buttons := buttons);
      if BUTTON_CODES[detail] != 0 {
        events := AppendEvent(events, EV_KEY, BUTTON_CODES[detail], Bit(pressed));
      }
    }
  }

  /** One XI2 event of the selected device; a report closes the packet unless it is empty. */
  method BuildPacket(pad: Pad, e: XiEvent) returns (p: Pad, packet: seq<Record>)
    requires WellFormed(e) && ValidPad(pad)
    ensures p == NextPad(pad, e)
    ensures Bodies(packet) == Packet(pad, p) && |packet| <= PACKET_LIMIT
  {
    match e {
      case Motion(mask, values) =>
        var axes;
        axes, packet := MoveAxes(pad.axes, mask, values);
        p := pad.(axes := axes);
        AxisChangesAll(pad, axes);
      case Button(detail, pressed) =>
        p, packet := PressButton(pad, detail, pressed);
    }
    if |packet| > 0 {
      packet := AppendEvent(packet, EV_SYN, SYN_REPORT, 0);
    }
  }
}
