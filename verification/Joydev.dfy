/** The legacy joystick interface: evdev records converted to 8-byte events. */
module Joydev {
  import opened Bytes
  import opened Protocol
  import opened Controller

  const JS_EVENT_BUTTON: byte := 0x01
  const JS_EVENT_AXIS: byte := 0x02
  const JS_EVENT_INIT: byte := 0x80
  const JS_EVENT_SIZE := 8

  datatype JsEvent = JsEvent(time: u32, value: s16, kind: byte, number: byte)

  // ----------------------------------------------------------------- conversion

  function AxisNumber(code: u16): int {
    if code == ABS_X then 0 else if code == ABS_Y then 1 else if code == ABS_Z then 2
    else if code == ABS_RX then 3 else if code == ABS_RY then 4 else if code == ABS_RZ then 5
    else if code == ABS_HAT0X then 6 else if code == ABS_HAT0Y then 7 else -1
  }

  function ButtonNumber(code: u16): int {
    if code == BTN_SOUTH then 0 else if code == BTN_EAST then 1 else if code == BTN_NORTH then 2
    else if code == BTN_WEST then 3 else if code == BTN_TL then 4 else if code == BTN_TR then 5
    else if code == BTN_SELECT then 6 else if code == BTN_START then 7 else if code == BTN_MODE then 8
    else if code == BTN_THUMBL then 9 else if code == BTN_THUMBR then 10 else if code == BTN_C then 11 else -1
  }

  /** Triggers are spread over the range, with the last step one too far for 16 bits. */
  function TriggerAxis(v: s32): s16 {
    var t := if v < 0 then 0 else if v > 255 then 255 else v;
    ToInt16(t * 257 - 32767)
  }

  function AxisValue(code: u16, v: s32): s16 {
    if code == ABS_Z || code == ABS_RZ then TriggerAxis(v)
    else if code == ABS_HAT0X || code == ABS_HAT0Y then
      if v < 0 then -32767 else if v > 0 then 32767 else 0
    else if v < -32767 then -32767 else if v > 32767 then 32767 else v
  }

  /** C's division, toward zero. */
  function Truncated(a: int, b: int): int
    requires b > 0
  {
    if a < 0 then -((-a) / b) else a / b
  }

  function Milliseconds(t: Stamp): u32 {
    (t.sec * 1000 + Truncated(t.usec, 1000)) % 0x1_0000_0000
  }

  datatype Converted = Skipped | Made(event: JsEvent)

  /** One record; the first report ends the initial events. */
  function Convert(initializing: bool, r: Record): Converted {
    var e, init := r.event, if initializing then JS_EVENT_INIT else 0;
    if e.kind == EV_ABS && AxisNumber(e.code) >= 0 then
      Made(JsEvent(Milliseconds(r.time), AxisValue(e.code, e.value), JS_EVENT_AXIS + init, AxisNumber(e.code)))
    else if e.kind == EV_KEY && ButtonNumber(e.code) >= 0 then
      Made(JsEvent(Milliseconds(r.time), if e.value != 0 then 1 else 0, JS_EVENT_BUTTON + init, ButtonNumber(e.code)))
    else Skipped
  }

  /** Still before the first report? */
  function StillInitial(initializing: bool, rs: seq<Record>): bool {
    initializing && forall r :: r in rs ==> !IsReport(r.event)
  }

  /** All that a reader gets out of these records. */
  function JoyEvents(initializing: bool, rs: seq<Record>): seq<JsEvent> {
    if rs == [] then []
    else
      var front, r := rs[..|rs| - 1], rs[|rs| - 1];
      var c := Convert(StillInitial(initializing, front), r);
      JoyEvents(initializing, front) + (if c.Made? then [c.event] else [])
  }

  lemma {:induction false} JoyEventsAppend(initializing: bool, a: seq<Record>, b: seq<Record>)
    ensures StillInitial(initializing, a + b) == StillInitial(StillInitial(initializing, a), b)
    ensures JoyEvents(initializing, a + b) == JoyEvents(initializing, a) + JoyEvents(StillInitial(initializing, a), b)
    decreases |b|
  {
    if b == [] {
      assert a + b == a;
    } else {
      var front, r := b[..|b| - 1], b[|b| - 1];
      JoyEventsAppend(initializing, a, front);
      AppendLast(a, b);
      assert (a + b)[..|a + b| - 1] == a + front && (a + b)[|a + b| - 1] == r;
      JoyRegroup(initializing, a, front, r);
    }
  }

  lemma JoyRegroup(initializing: bool, a: seq<Record>, front: seq<Record>, r: Record)
    ensures StillInitial(initializing, a + front) == StillInitial(StillInitial(initializing, a), front)
  {
    assert forall x :: x in a + front <==> x in a || x in front;
  }

  // ------------------------------------------------------------- arithmetic laws

  /** The last step of a trigger wraps around to the lowest value, ... */
  lemma TriggerWraps()
    ensures TriggerAxis(255) == -32768 && TriggerAxis(254) == 32511
  {}

  /** ... so order is kept for exactly the pairs that do not end there. */
  lemma TriggerOrder(u: s32, v: s32)
    requires 0 <= u < v <= 255
    ensures TriggerAxis(u) < TriggerAxis(v) <==> v < 255
  {}

  /** Everything else stays in the symmetric range and keeps order. */
  lemma StickOrder(code: u16, u: s32, v: s32)
    requires code != ABS_Z && code != ABS_RZ && u <= v
    ensures -32767 <= AxisValue(code, u) <= AxisValue(code, v) <= 32767
    ensures code != ABS_HAT0X && code != ABS_HAT0Y && -32767 <= u <= 32767 ==> AxisValue(code, u) == u
  {}

  // ------------------------------------------------------------- a reader's state

  /** Axes 0 to 7 and buttons 0 to 11, as a reader folds them. */
  type JoyState = s: seq<s16> | |s| == 20 witness seq(20, _ => 0)

  /** The place of a control: axes first. */
  function ControlIndex(kind: byte, number: byte): int {
    if kind % 0x80 == JS_EVENT_AXIS && number < 8 then number
    else if kind % 0x80 == JS_EVENT_BUTTON && number < 12 then 8 + number
    else -1
  }

  function Hear(s: JoyState, j: JsEvent): JoyState {
    var c := ControlIndex(j.kind, j.number);
    if c >= 0 then s[c := j.value] else s
  }

  function HearAll(s: JoyState, js: seq<JsEvent>): JoyState {
    if js == [] then s else Hear(HearAll(s, js[..|js| - 1]), js[|js| - 1])
  }

  lemma HearPush(s: JoyState, js: seq<JsEvent>, j: JsEvent)
    ensures HearAll(s, js + [j]) == Hear(HearAll(s, js), j)
  {
    assert (js + [j])[..|js|] == js;
  }

  /** The cell of the bridge's snapshot behind a control. */
  function CellBehind(c: nat): (k: nat)
    requires c < 20
    ensures k < 20
  {
    if c < 2 then c
    else if c == 2 then 4 else if c == 3 then 2 else if c == 4 then 3
    else if c < 8 then c
    else if c < 16 then c
    else if c == 16 then 18 else if c == 17 then 16 else if c == 18 then 17
    else 19
  }

  function ControlOf(k: nat): (c: nat)
    requires k < 20
    ensures c < 20 && CellBehind(c) == k
  {
    if k < 2 then k
    else if k == 2 then 3 else if k == 3 then 4 else if k == 4 then 2
    else if k < 16 then k
    else if k == 16 then 17 else if k == 17 then 18 else if k == 18 then 16
    else 19
  }

  function CellValue(k: nat, v: s32): s16
    requires k < 20
  {
    if k < 8 then AxisValue(CELL_CODES[k], v) else if v != 0 then 1 else 0
  }

  /** The controls of a reader as a pointwise conversion of the cells. */
  function JoyOf(w: Cells): (s: JoyState)
    ensures forall c :: 0 <= c < 20 ==> s[c] == CellValue(CellBehind(c), w[CellBehind(c)])
  {
    seq(20, c requires 0 <= c < 20 => CellValue(CellBehind(c), w[CellBehind(c)]))
  }

  /** An event about a cell becomes an event about that cell's control; all others are dropped. */
  lemma ConvertCell(initializing: bool, r: Record)
    ensures var c, k := Convert(initializing, r), CellOf(r.event);
      if k < 0 then c.Skipped?
      else
        && c.Made? && c.event.value == CellValue(k, r.event.value)
        && ControlIndex(c.event.kind, c.event.number) == ControlOf(k)
        && (c.event.kind >= JS_EVENT_INIT <==> initializing)
  {}

  lemma HearCommutes(w: Cells, initializing: bool, r: Record)
    ensures var c := Convert(initializing, r);
      (if c.Made? then Hear(JoyOf(w), c.event) else JoyOf(w)) == JoyOf(Assign(w, r.event))
  {
    ConvertCell(initializing, r);
    var k := CellOf(r.event);
    if k >= 0 {
      var v := Assign(w, r.event);
      assert forall c :: 0 <= c < 20 && c != ControlOf(k) ==> CellBehind(c) != k;
      assert JoyOf(w)[ControlOf(k) := CellValue(k, r.event.value)] == JoyOf(v);
    }
  }

  /** What a reader folds is the conversion of what the library would fold. */
  lemma {:induction false} HearFold(w: Cells, initializing: bool, rs: seq<Record>)
    ensures HearAll(JoyOf(w), JoyEvents(initializing, rs)) == JoyOf(Fold(w, Bodies(rs)))
  {
    if rs != [] {
      var n := |rs| - 1;
      HearFold(w, initializing, rs[..n]);
      assert Bodies(rs)[..n] == Bodies(rs[..n]);
      var c := Convert(StillInitial(initializing, rs[..n]), rs[n]);
      HearCommutes(Fold(w, Bodies(rs[..n])), StillInitial(initializing, rs[..n]), rs[n]);
      if c.Made? {
        HearPush(JoyOf(w), JoyEvents(initializing, rs[..n]), c.event);
      } else {
        assert JoyEvents(initializing, rs[..n]) + [] == JoyEvents(initializing, rs[..n]);
      }
    }
  }

  /** A control that is heard of no longer depends on what was known before. */
  lemma {:induction false} HeardForgets(s: JoyState, t: JoyState, js: seq<JsEvent>, k: nat)
    requires k < |js| && ControlIndex(js[k].kind, js[k].number) >= 0
    ensures var c := ControlIndex(js[k].kind, js[k].number); HearAll(s, js)[c] == HearAll(t, js)[c]
  {
    if k < |js| - 1 {
      HeardForgets(s, t, js[..|js| - 1], k);
    }
  }

  // ------------------------------------------------------------- initial events

  /** Records whose events are the twenty cells in order. */
  ghost predicate CellsInOrder(rs: seq<Record>) {
    forall c :: 0 <= c < |rs| ==> c < 20 && rs[c].event == CellEvent(c, rs[c].event.value)
  }

  lemma {:induction false} CellsConvert(rs: seq<Record>)
    requires |rs| <= 20 && CellsInOrder(rs)
    ensures StillInitial(true, rs)
    ensures var js := JoyEvents(true, rs);
      |js| == |rs| && forall k :: 0 <= k < |rs| ==>
        js[k].kind >= JS_EVENT_INIT && ControlIndex(js[k].kind, js[k].number) == ControlOf(k)
  {
    if rs != [] {
      var n := |rs| - 1;
      CellsConvert(rs[..n]);
      CellOfCellEvent(n, rs[n].event.value);
      ConvertCell(true, rs[n]);
    }
  }

  lemma {:induction false} LaterEvents(rs: seq<Record>)
    ensures forall j :: j in JoyEvents(false, rs) ==> j.kind < JS_EVENT_INIT
  {
    if rs != [] {
      LaterEvents(rs[..|rs| - 1]);
      ConvertCell(false, rs[|rs| - 1]);
    }
  }

  /** The report itself is not passed on, and ends the initial events. */
  lemma ReportEndsInitial(rs: seq<Record>)
    requires |rs| > 0 && rs[0].event == SYN
    ensures JoyEvents(true, rs) == JoyEvents(false, rs[1..])
  {
    assert rs == [rs[0]] + rs[1..];
    JoyEventsAppend(true, [rs[0]], rs[1..]);
    ConvertCell(true, rs[0]);
    assert [rs[0]][..0] == [];
    assert JoyEvents(true, [rs[0]]) == [];
    assert [] + JoyEvents(false, rs[1..]) == JoyEvents(false, rs[1..]);
  }

  /** Twenty initial events, the k-th about the control of cell k. */
  ghost predicate InitialOnes(js: seq<JsEvent>) {
    |js| == 20 && forall k :: 0 <= k < 20 ==>
      js[k].kind >= JS_EVENT_INIT && ControlIndex(js[k].kind, js[k].number) == ControlOf(k)
  }

  ghost predicate NoneInitial(js: seq<JsEvent>) {
    forall j :: j in js ==> j.kind < JS_EVENT_INIT
  }

  /**
   * Every reader first sees twenty initial events, one for each axis and button, and no initial
   * event after them.
   */
  lemma {:induction false} InitialEvents(rs: seq<Record>)
    requires |rs| >= 21 && CellsInOrder(rs[..20]) && rs[20].event == SYN
    ensures var js := JoyEvents(true, rs);
      |js| >= 20 && InitialOnes(js[..20]) && NoneInitial(js[20..])
  {
    var cells, rest := rs[..20], rs[20..];
    assert rs == cells + rest;
    CellsConvert(cells);
    JoyEventsAppend(true, cells, rest);
    ReportEndsInitial(rest);
    LaterEvents(rest[1..]);
    var a, b := JoyEvents(true, cells), JoyEvents(true, rest);
    assert (a + b)[..20] == a && (a + b)[20..] == b;
  }

  /** The order of the cells only permutes the controls: none is missing and none comes twice. */
  lemma EachControlOnce(c: nat, k: nat)
    requires c < 20 && k < 20
    ensures ControlOf(CellBehind(c)) == c && CellBehind(ControlOf(k)) == k
  {}

  /** Twenty initial events determine everything a reader knows. */
  lemma InitialDetermines(s: JoyState, t: JoyState, rs: seq<Record>)
    requires |rs| >= 21 && CellsInOrder(rs[..20]) && rs[20].event == SYN
    ensures HearAll(s, JoyEvents(true, rs)) == HearAll(t, JoyEvents(true, rs))
  {
    var js := JoyEvents(true, rs);
    InitialEvents(rs);
    forall c | 0 <= c < 20 ensures HearAll(s, js)[c] == HearAll(t, js)[c] {
      EachControlOnce(c, c);
      assert js[..20][CellBehind(c)] == js[CellBehind(c)];
      HeardForgets(s, t, js, CellBehind(c));
    }
  }

  // ------------------------------------------------------------- reading in pieces

  function RecordsIn(s: seq<byte>): seq<Record> { DecodeRecords(Records(s, EVENT_SIZE)) }

  /** What a list of read calls gives out, when each of them is handed some of the stream. */
  function ReadRun(initializing: bool, raw: seq<byte>, got: seq<seq<byte>>): seq<JsEvent>
    decreases |got|
  {
    if got == [] then []
    else
      var rs := RecordsIn(raw + got[0]);
      JoyEvents(initializing, rs) + ReadRun(StillInitial(initializing, rs), Rest(raw + got[0], EVENT_SIZE), got[1..])
  }

  lemma RecordsInAppend(a: seq<byte>, b: seq<byte>)
    ensures RecordsIn(a + b) == RecordsIn(a) + RecordsIn(Rest(a, EVENT_SIZE) + b)
  {
    CutsCompose(a, b, EVENT_SIZE);
    DecodeRecordsAppend(Records(a, EVENT_SIZE), Records(Rest(a, EVENT_SIZE) + b, EVENT_SIZE));
  }

  /** One more piece of the stream: the end of a record, or not yet. */
  lemma OneMorePiece(s: seq<byte>, data: seq<byte>)
    requires |Rest(s, EVENT_SIZE)| + |data| <= EVENT_SIZE
    ensures var b := Rest(s, EVENT_SIZE) + data;
      if |b| == EVENT_SIZE then RecordsIn(s + data) == RecordsIn(s) + [DecodeRecord(b)] && Rest(s + data, EVENT_SIZE) == []
      else RecordsIn(s + data) == RecordsIn(s) && Rest(s + data, EVENT_SIZE) == b
  {
    var b := Rest(s, EVENT_SIZE) + data;
    CutsCompose(s, data, EVENT_SIZE);
    RecordsInAppend(s, data);
    if |b| == EVENT_SIZE {
      assert b[..EVENT_SIZE] == b && b[EVENT_SIZE..] == [];
      assert RecordsIn(b) == [DecodeRecord(b)];
    } else {
      assert RecordsIn(b) == [];
    }
  }

  /** One more record: the events it gives and whether it was the first report. */
  lemma OneMoreRecord(initializing: bool, rs: seq<Record>, r: Record)
    ensures var init := StillInitial(initializing, rs);
      && StillInitial(initializing, rs + [r]) == (init && !IsReport(r.event))
      && JoyEvents(initializing, rs + [r]) ==
           JoyEvents(initializing, rs) + (if Convert(init, r).Made? then [Convert(init, r).event] else [])
  {
    assert (rs + [r])[..|rs|] == rs;
    assert forall x :: x in rs + [r] <==> x in rs || x == r;
  }

  /** However the stream is split and however large the caller's buffers are, nothing is lost, repeated or reordered. */
  lemma {:induction false} ReadsCompose(initializing: bool, raw: seq<byte>, got: seq<seq<byte>>)
    requires |raw| < EVENT_SIZE
    ensures ReadRun(initializing, raw, got) == JoyEvents(initializing, RecordsIn(raw + Join(got)))
    decreases |got|
  {
    if got == [] {
      assert raw + [] == raw;
      assert RecordsIn(raw) == [];
    } else {
      var s := raw + got[0];
      var rs := RecordsIn(s);
      ReadsCompose(StillInitial(initializing, rs), Rest(s, EVENT_SIZE), got[1..]);
      Regroup(raw, got[0], Join(got[1..]));
      RecordsInAppend(s, Join(got[1..]));
      JoyEventsAppend(initializing, rs, RecordsIn(Rest(s, EVENT_SIZE) + Join(got[1..])));
    }
  }
}
