/** The records that cross the bridge's socket, and the bytes they are made of. */
module Protocol {
  import opened Bytes

  // Linux input event types and codes
  const EV_SYN: u16 := 0x00
  const EV_KEY: u16 := 0x01
  const EV_ABS: u16 := 0x03
  const EV_FF: u16 := 0x15
  const SYN_REPORT: u16 := 0

  const ABS_X: u16 := 0x00
  const ABS_Y: u16 := 0x01
  const ABS_Z: u16 := 0x02
  const ABS_RX: u16 := 0x03
  const ABS_RY: u16 := 0x04
  const ABS_RZ: u16 := 0x05
  const ABS_HAT0X: u16 := 0x10
  const ABS_HAT0Y: u16 := 0x11

  const BTN_SOUTH: u16 := 0x130
  const BTN_EAST: u16 := 0x131
  const BTN_C: u16 := 0x132
  const BTN_NORTH: u16 := 0x133
  const BTN_WEST: u16 := 0x134
  const BTN_TL: u16 := 0x136
  const BTN_TR: u16 := 0x137
  const BTN_SELECT: u16 := 0x13a
  const BTN_START: u16 := 0x13b
  const BTN_MODE: u16 := 0x13c
  const BTN_THUMBL: u16 := 0x13d
  const BTN_THUMBR: u16 := 0x13e

  // The bridge's own protocol
  const CONTROL_MAGIC: u32 := 0x54474546
  const CONTROL_VERSION: u16 := 3
  const CONTROL_RUMBLE: u16 := 1
  const CONTROL_STOP_RUMBLE: u16 := 2
  const CONTROL_QUERY_DESCRIPTOR: u16 := 3
  const CONTROL_MONITOR: u16 := 4
  const DEVICE_MAGIC: u32 := 0x54474456
  const DEVICE_CAP_RUMBLE: byte := 1
  const HOTPLUG_MAGIC: u32 := 0x54474850
  const HOTPLUG_ADD: byte := 1
  const HOTPLUG_REMOVE: byte := 2

  const EVENT_SIZE := 24
  const DESCRIPTOR_SIZE := 88
  const HOTPLUG_SIZE := 96
  const CONTROL_SIZE := 16

  type Name = s: seq<byte> | |s| == 64 witness seq(64, _ => 0)

  datatype Stamp = Stamp(sec: s64, usec: s64)
  datatype Event = Event(kind: u16, code: u16, value: s32)
  datatype Record = Record(time: Stamp, event: Event)

  datatype DeviceDescriptor = DeviceDescriptor(
    magic: u32, version: u16, present: byte, capabilities: byte, inputMode: byte,
    vendorId: u32, productId: u32, deviceId: s32, name: Name)

  datatype Hotplug = Hotplug(magic: u32, version: u16, action: byte, descriptor: DeviceDescriptor)

  datatype Control = Control(magic: u32, version: u16, command: u16, low: u16, high: u16, duration: u32)

  const SYN: Event := Event(EV_SYN, SYN_REPORT, 0)

  // -------------------------------------------------------------- 24 bytes

  function EncodeRecord(r: Record): (s: seq<byte>)
    ensures |s| == EVENT_SIZE
  {
    Put(Unsigned64(r.time.sec), 8) + Put(Unsigned64(r.time.usec), 8) +
    Put(r.event.kind, 2) + Put(r.event.code, 2) + Put(Unsigned32(r.event.value), 4)
  }

  function DecodeRecord(s: seq<byte>): Record
    requires |s| == EVENT_SIZE
  {
    Record(Stamp(Signed64(Get64(s[..8])), Signed64(Get64(s[8..16]))),
           Event(Get16(s[16..18]), Get16(s[18..20]), Signed32(Get32(s[20..]))))
  }

  lemma RecordRoundTrip(r: Record)
    ensures DecodeRecord(EncodeRecord(r)) == r
  {
    var s := EncodeRecord(r);
    Widths();
    GetPut(Unsigned64(r.time.sec), 8);
    GetPut(Unsigned64(r.time.usec), 8);
    GetPut(r.event.kind, 2);
    GetPut(r.event.code, 2);
    GetPut(Unsigned32(r.event.value), 4);
    assert s[..8] == Put(Unsigned64(r.time.sec), 8);
    assert s[8..16] == Put(Unsigned64(r.time.usec), 8);
    assert s[16..18] == Put(r.event.kind, 2);
    assert s[18..20] == Put(r.event.code, 2);
    assert s[20..] == Put(Unsigned32(r.event.value), 4);
  }

  function Frames(rs: seq<Record>): (fs: seq<seq<byte>>)
    ensures |fs| == |rs| && forall i :: 0 <= i < |rs| ==> fs[i] == EncodeRecord(rs[i])
  {
    seq(|rs|, i requires 0 <= i < |rs| => EncodeRecord(rs[i]))
  }

  function EncodeRecords(rs: seq<Record>): seq<byte> {
    Join(Frames(rs))
  }

  function DecodeRecords(raw: seq<seq<byte>>): (rs: seq<Record>)
    requires forall r :: r in raw ==> |r| == EVENT_SIZE
    ensures |rs| == |raw| && forall i :: 0 <= i < |raw| ==> rs[i] == DecodeRecord(raw[i])
  {
    seq(|raw|, i requires 0 <= i < |raw| => DecodeRecord(raw[i]))
  }

  lemma {:induction false} DecodeRecordsAppend(a: seq<seq<byte>>, b: seq<seq<byte>>)
    requires (forall r :: r in a ==> |r| == EVENT_SIZE) && (forall r :: r in b ==> |r| == EVENT_SIZE)
    ensures DecodeRecords(a + b) == DecodeRecords(a) + DecodeRecords(b)
  {
    forall i | 0 <= i < |a| + |b| ensures DecodeRecords(a + b)[i] == (DecodeRecords(a) + DecodeRecords(b))[i] {
      assert (a + b)[i] == if i < |a| then a[i] else b[i - |a|];
    }
  }

  lemma EncodeRecordsAppend(a: seq<Record>, b: seq<Record>)
    ensures EncodeRecords(a + b) == EncodeRecords(a) + EncodeRecords(b)
  {
    JoinAppend(Frames(a), Frames(b));
    assert Frames(a + b) == Frames(a) + Frames(b);
  }

  /** However much of an encoded stream has arrived, what it decodes to is a prefix of what was sent. */
  lemma RecordsOfPrefix(rs: seq<Record>, n: nat)
    requires n <= |EncodeRecords(rs)|
    ensures DecodeRecords(Records(EncodeRecords(rs)[..n], EVENT_SIZE)) <= rs
    ensures n == |EncodeRecords(rs)| ==> DecodeRecords(Records(EncodeRecords(rs)[..n], EVENT_SIZE)) == rs
  {
    CutsOfPrefix(Frames(rs), EVENT_SIZE, n);
    DecodeFrames(rs, Records(EncodeRecords(rs)[..n], EVENT_SIZE));
  }

  lemma DecodeFrames(rs: seq<Record>, raw: seq<seq<byte>>)
    requires raw <= Frames(rs)
    ensures DecodeRecords(raw) == rs[..|raw|]
  {
    forall i | 0 <= i < |raw| ensures DecodeRecord(raw[i]) == rs[i] {
      assert raw[i] == Frames(rs)[i];
      RecordRoundTrip(rs[i]);
    }
  }

  // -------------------------------------------------------------- 16 bytes

  function EncodeControl(m: Control): (s: seq<byte>)
    ensures |s| == CONTROL_SIZE
  {
    Put(m.magic, 4) + Put(m.version, 2) + Put(m.command, 2) +
    Put(m.low, 2) + Put(m.high, 2) + Put(m.duration, 4)
  }

  function DecodeControl(s: seq<byte>): Control
    requires |s| == CONTROL_SIZE
  {
    Control(Get32(s[..4]), Get16(s[4..6]), Get16(s[6..8]),
            Get16(s[8..10]), Get16(s[10..12]), Get32(s[12..]))
  }

  lemma ControlRoundTrip(m: Control)
    ensures DecodeControl(EncodeControl(m)) == m
  {
    var s := EncodeControl(m);
    Widths();
    GetPut(m.magic, 4);
    GetPut(m.version, 2);
    GetPut(m.command, 2);
    GetPut(m.low, 2);
    GetPut(m.high, 2);
    GetPut(m.duration, 4);
    assert s[..4] == Put(m.magic, 4);
    assert s[4..6] == Put(m.version, 2);
    assert s[6..8] == Put(m.command, 2);
    assert s[8..10] == Put(m.low, 2);
    assert s[10..12] == Put(m.high, 2);
    assert s[12..] == Put(m.duration, 4);
  }

  /** The 16 bytes have no padding: reading and writing back changes nothing. */
  lemma ControlBytesRoundTrip(s: seq<byte>)
    requires |s| == CONTROL_SIZE
    ensures EncodeControl(DecodeControl(s)) == s
  {
    PutGet(s[..4]);
    PutGet(s[4..6]);
    PutGet(s[6..8]);
    PutGet(s[8..10]);
    PutGet(s[10..12]);
    PutGet(s[12..]);
    assert s == s[..4] + s[4..6] + s[6..8] + s[8..10] + s[10..12] + s[12..];
  }

  // -------------------------------------------------------------- 88 bytes

  function EncodeDescriptor(d: DeviceDescriptor): (s: seq<byte>)
    ensures |s| == DESCRIPTOR_SIZE
  {
    Put(d.magic, 4) + Put(d.version, 2) + [d.present, d.capabilities, d.inputMode, 0, 0, 0] +
    Put(d.vendorId, 4) + Put(d.productId, 4) + Put(Unsigned32(d.deviceId), 4) + d.name
  }

  function DecodeDescriptor(s: seq<byte>): DeviceDescriptor
    requires |s| == DESCRIPTOR_SIZE
  {
    DeviceDescriptor(Get32(s[..4]), Get16(s[4..6]), s[6], s[7], s[8],
                     Get32(s[12..16]), Get32(s[16..20]), Signed32(Get32(s[20..24])), s[24..])
  }

  lemma Field16(n: u16)
    ensures Get16(Put(n, 2)) == n
  {
    Widths();
    GetPut(n, 2);
  }

  lemma Field32(n: u32)
    ensures Get32(Put(n, 4)) == n
  {
    Widths();
    GetPut(n, 4);
  }

  /** Where each field of a descriptor is found. */
  lemma DescriptorFields(d: DeviceDescriptor)
    ensures var s := EncodeDescriptor(d);
      && s[..4] == Put(d.magic, 4) && s[4..6] == Put(d.version, 2)
      && s[6] == d.present && s[7] == d.capabilities && s[8] == d.inputMode
      && s[12..16] == Put(d.vendorId, 4) && s[16..20] == Put(d.productId, 4)
      && s[20..24] == Put(Unsigned32(d.deviceId), 4) && s[24..] == d.name
  {
    var s := EncodeDescriptor(d);
    assert s[6..12] == [d.present, d.capabilities, d.inputMode, 0, 0, 0];
    assert s[6] == s[6..12][0] && s[7] == s[6..12][1] && s[8] == s[6..12][2];
  }

  lemma DescriptorRoundTrip(d: DeviceDescriptor)
    ensures DecodeDescriptor(EncodeDescriptor(d)) == d
  {
    DescriptorFields(d);
    Field32(d.magic);
    Field16(d.version);
    Field32(d.vendorId);
    Field32(d.productId);
    Field32(Unsigned32(d.deviceId));
  }

  // -------------------------------------------------------------- 96 bytes

  function EncodeHotplug(h: Hotplug): (s: seq<byte>)
    ensures |s| == HOTPLUG_SIZE
  {
    Put(h.magic, 4) + Put(h.version, 2) + [h.action, 0] + EncodeDescriptor(h.descriptor)
  }

  function DecodeHotplug(s: seq<byte>): Hotplug
    requires |s| == HOTPLUG_SIZE
  {
    Hotplug(Get32(s[..4]), Get16(s[4..6]), s[6], DecodeDescriptor(s[8..]))
  }

  lemma HotplugRoundTrip(h: Hotplug)
    ensures DecodeHotplug(EncodeHotplug(h)) == h
  {
    var s := EncodeHotplug(h);
    Widths();
    GetPut(h.magic, 4);
    GetPut(h.version, 2);
    DescriptorRoundTrip(h.descriptor);
    assert s[..4] == Put(h.magic, 4);
    assert s[4..6] == Put(h.version, 2);
    assert s[6..8] == [h.action, 0];
    assert s[6] == s[6..8][0];
    assert s[8..] == EncodeDescriptor(h.descriptor);
  }

  // ------------------------------------------- what one connection carries

  datatype Body =
    | Descriptor(descriptor: DeviceDescriptor)
    | Events(records: seq<Record>)
    | Announce(hotplug: Hotplug)

  function BodyBytes(b: Body): seq<byte> {
    match b
    case Descriptor(d) => EncodeDescriptor(d)
    case Events(rs) => EncodeRecords(rs)
    case Announce(h) => EncodeHotplug(h)
  }

  /** A message is queued whole or not at all; a log is what was queued since connect. */
  datatype Msg = Msg(body: Body, bytes: seq<byte>)

  function Wrap(b: Body): Msg { Msg(b, BodyBytes(b)) }

  /** The bytes are those of the body; stated so that only a mention of BodyBytes brings the encoding in. */
  ghost predicate Faithful(m: Msg) {
    forall b: Body {:trigger BodyBytes(b)} :: b == m.body ==> m.bytes == BodyBytes(b)
  }

  lemma FaithfulBytes(m: Msg)
    ensures Faithful(m) <==> m.bytes == BodyBytes(m.body)
  {}

  lemma WrapFaithful(b: Body)
    ensures Faithful(Wrap(b))
  {}

  function LogBytes(log: seq<Msg>): seq<byte> {
    if log == [] then [] else LogBytes(log[..|log| - 1]) + log[|log| - 1].bytes
  }

  lemma LogBytesPush(log: seq<Msg>, m: Msg)
    ensures LogBytes(log + [m]) == LogBytes(log) + m.bytes
  {
    assert (log + [m])[..|log|] == log;
  }

  /** Every record queued on an event connection, in order. */
  function Flat(log: seq<Msg>): seq<Record> {
    if log == [] then []
    else Flat(log[..|log| - 1]) + (if log[|log| - 1].body.Events? then log[|log| - 1].body.records else [])
  }

  function Bodies(rs: seq<Record>): (es: seq<Event>)
    ensures |es| == |rs|
    ensures forall i :: 0 <= i < |rs| ==> es[i] == rs[i].event
  {
    seq(|rs|, i requires 0 <= i < |rs| => rs[i].event)
  }

  lemma BodiesAppend(a: seq<Record>, b: seq<Record>)
    ensures Bodies(a + b) == Bodies(a) + Bodies(b)
  {}
}
