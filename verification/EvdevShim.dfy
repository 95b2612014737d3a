/** The preloaded shim: its static tables, and the hooks for read, write, ioctl and close. */
module EvdevShim {
  import opened Bytes
  import opened Protocol
  import opened Controller
  import opened ForceFeedback
  import opened Joydev
  import opened ShimModel

  datatype ReadResult = Some(data: seq<byte>) | End | Error

  /** The real read. Only finitely much arrives during one call of the hook. */
  method RealRead(room: nat, budget: nat) returns (r: ReadResult, left: nat)
    requires room > 0
    ensures r.Some? ==> 0 < |r.data| <= room && left < budget
    ensures left <= budget
  {
    left := budget;
    if
    case budget > 0 =>
      var data: seq<byte> :| 0 < |data| <= room by { assert |[0 as byte]| == 1; }
      r, left := Some(data), budget - 1;
    case true => r := End;
    case true => r := Error;
  }

  /** One message to the bridge; the socket may refuse it. */
  method SendControl(c: Control) returns (ok: bool) {
    ok := *;
  }

  lemma {:induction false} WholeRecords(s: seq<byte>)
    ensures |RecordsIn(s)| == |s| / EVENT_SIZE
    decreases |s|
  {
    if |s| >= EVENT_SIZE {
      WholeRecords(s[EVENT_SIZE..]);
    }
  }

  method EventAt(buffer: seq<byte>, i: nat) returns (e: Event)
    requires i < |buffer| / EVENT_SIZE
    ensures i < |RecordsIn(buffer)| && e == Bodies(RecordsIn(buffer))[i] == RecordsIn(buffer)[i].event
  {
    var at := EVENT_SIZE * i;
    RecordAt(buffer, EVENT_SIZE, i, at);
    e := DecodeRecord(buffer[at..at + EVENT_SIZE]).event;
  }

  class Tables {
    const fakeFds: array<FakeFd>
    var fakeCount: nat
    const effectSlots: array<EffectSlot>
    var ffGain: u16

    ghost predicate Valid()
      reads this, fakeFds
    {
      && fakeFds.Length == MAX_FAKE_FDS && fakeCount <= MAX_FAKE_FDS
      && effectSlots.Length == MAX_EFFECTS
      && forall k :: 0 <= k < fakeCount ==> |fakeFds[k].raw| < EVENT_SIZE
    }

    ghost function Contents(): Shim
      requires Valid()
      reads this, fakeFds, effectSlots
    {
      Shim(fakeFds[..fakeCount], effectSlots[..], ffGain)
    }

    constructor ()
      ensures Valid() && fresh(fakeFds) && fresh(effectSlots)
      ensures Contents().fds == [] && Owned(Contents()) && ffGain == FULL_GAIN
    {
      var none := Fresh(0, false, DeviceDescriptor(0, 0, 0, 0, 0, 0, 0, 0, seq(64, _ => 0)));
      fakeFds := new FakeFd[MAX_FAKE_FDS](_ => none);
      effectSlots := new EffectSlot[MAX_EFFECTS](_ => NO_EFFECT);
      fakeCount, ffGain := 0, FULL_GAIN;
    }

    method FindFakeFd(fd: int) returns (i: int)
      requires Valid()
      ensures i == IndexOf(fakeFds[..fakeCount], fd)
    {
      i := 0;
      while i < fakeCount
        invariant 0 <= i <= fakeCount
        invariant forall k :: 0 <= k < i ==> fakeFds[k].fd != fd
      {
        if fakeFds[i].fd == fd {
          return;
        }
        i := i + 1;
      }
      i := -1;
    }

    method AddFakeFd(fd: int, joydev: bool, d: DeviceDescriptor)
      requires Valid()
      modifies this`fakeCount, fakeFds
      ensures Valid() && Contents() == Opened(old(Contents()), fd, joydev, d)
    {
      var i := FindFakeFd(fd);
      if fd < 0 || i >= 0 || fakeCount >= MAX_FAKE_FDS {
        return;
      }
      fakeFds[fakeCount] := FakeFd(fd, joydev, joydev, [], d);
      fakeCount := fakeCount + 1;
    }

    /** Opens the device: without a present one there is no file. */
    method ConnectDevice(joydev: bool) returns (fd: int, ghost d: DeviceDescriptor)
      requires Valid()
      modifies this`fakeCount, fakeFds
      ensures Valid()
      ensures fd >= 0 ==> d.magic == DEVICE_MAGIC && d.version == CONTROL_VERSION && d.present != 0
      ensures Contents() == if fd >= 0 then Opened(old(Contents()), fd, joydev, d) else old(Contents())
    {
      var socket: nat, answer: seq<byte> := *, *;
      if |answer| != DESCRIPTOR_SIZE {
        return -1, DeviceDescriptor(0, 0, 0, 0, 0, 0, 0, 0, seq(64, _ => 0));
      }
      var descriptor := DecodeDescriptor(answer);
      d := descriptor;
      if descriptor.magic != DEVICE_MAGIC || descriptor.version != CONTROL_VERSION || descriptor.present == 0 {
        return -1, d;
      }
      AddFakeFd(socket, joydev, descriptor);
      fd := socket;
    }

    method DelFakeFd(fd: nat)
      requires Valid()
      modifies this`fakeCount, fakeFds
      ensures Valid() && Contents() == old(Contents()).(fds := Deleted(old(Contents()).fds, fd))
    {
      var i := FindFakeFd(fd);
      if i >= 0 {
        fakeCount := fakeCount - 1;
        fakeFds[i] := fakeFds[fakeCount];
      }
    }

    // ---------------------------------------------------------------- effects

    method FindEffect(fd: nat, id: int) returns (k: int)
      requires Valid()
      ensures k == Find(effectSlots[..], fd, id)
    {
      if id < 0 || id >= MAX_EFFECTS {
        return -1;
      }
      k := if effectSlots[id].used && effectSlots[id].fd == fd then id else -1;
    }

    /** The slot for an upload: the first free one, or the one asked for. */
    method PlaceEffect(fd: nat, u: Upload) returns (id: int)
      requires Valid()
      ensures id == Place(effectSlots[..], fd, u)
    {
      if u.effect.Unsupported? {
        return -1;
      }
      id := u.id;
      if id == -1 {
        var i := 0;
        while i < MAX_EFFECTS
          invariant 0 <= i <= MAX_EFFECTS && id == -1
          invariant forall j :: 0 <= j < i ==> effectSlots[j].used
        {
          if !effectSlots[i].used {
            return i;
          }
          i := i + 1;
        }
      } else if id < 0 || id >= MAX_EFFECTS || (effectSlots[id].used && effectSlots[id].fd != fd) {
        return -1;
      }
    }

    method UploadEffect(fd: nat, u: Upload) returns (ok: bool, id: int)
      requires Valid() && Playable(Contents().fds, fd)
      modifies effectSlots
      ensures Valid() && Contents() == UploadedTo(old(Contents()), fd, u)
      ensures id == Place(old(effectSlots[..]), fd, u) && ok == (id >= 0)
    {
      id := PlaceEffect(fd, u);
      ok := id >= 0;
      if ok {
        var s := Strengths(u.effect);
        effectSlots[id] := EffectSlot(true, fd, s.0, s.1, u.replayLength);
      }
    }

    method RemoveEffect(fd: nat, id: int) returns (ok: bool)
      requires Valid() && Playable(Contents().fds, fd)
      modifies effectSlots
      ensures Valid() && Contents() == ErasedFrom(old(Contents()), fd, id)
      ensures ok == (Find(old(effectSlots[..]), fd, id) >= 0)
    {
      var k := FindEffect(fd, id);
      ok := k >= 0;
      if ok {
        effectSlots[k] := effectSlots[k].(used := false);
      }
    }

    method ClearEffects(fd: nat)
      requires Valid()
      modifies effectSlots
      ensures Valid() && effectSlots[..] == Cleared(old(effectSlots[..]), fd)
    {
      ghost var was: Effects := effectSlots[..];
      for i := 0 to MAX_EFFECTS
        invariant forall k :: 0 <= k < MAX_EFFECTS ==> effectSlots[k] == if k < i then Cleared(was, fd)[k] else was[k]
      {
        if effectSlots[i].used && effectSlots[i].fd == fd {
          effectSlots[i] := effectSlots[i].(used := false);
        }
      }
    }

    /** The close hook: the motor is stopped, the effects freed, the entry forgotten. */
    method Close(fd: nat)
      requires Valid()
      modifies this`fakeCount, fakeFds, effectSlots
      ensures Valid() && Contents() == Closed(old(Contents()), fd)
    {
      var i := FindFakeFd(fd);
      if i >= 0 && !fakeFds[i].joydev {
        var sent := SendControl(Stop());
        ClearEffects(fd);
      }
      DelFakeFd(fd);
    }

    // ------------------------------------------------------------------- write

    /** One force-feedback event: it sets the gain, plays or stops an effect, or is refused. */
    method PlayEvent(fd: nat, e: Event) returns (ok: bool, sent: seq<Control>)
      requires Valid()
      modifies this`ffGain
      ensures var p := Play(effectSlots[..], fd, old(ffGain), e);
        && ffGain == (if p.Gain? then p.gain else old(ffGain))
        && (ok ==> !p.Refused? && sent == if p.Send? then [p.control] else [])
        && (!ok ==> (p.Refused? || p.Send?) && sent == [])
    {
      ok, sent := true, [];
      if e.kind != EV_FF {
        return;
      }
      if e.code == FF_GAIN {
        ffGain := if e.value < 0 then 0 else if e.value > 0xffff then 0xffff else e.value;
        return;
      }
      var k := FindEffect(fd, e.code);
      if k < 0 {
        return false, [];
      }
      var message;
      if e.value <= 0 {
        message := Stop();
      } else {
        var low, high := Gained(effectSlots[k].low, ffGain), Gained(effectSlots[k].high, ffGain);
        var duration: u32 := effectSlots[k].duration;
        if duration == 0 {
          duration := DEFAULT_DURATION;
        }
        message := Control(CONTROL_MAGIC, CONTROL_VERSION, CONTROL_RUMBLE, low, high, duration);
      }
      ok := SendControl(message);
      sent := if ok then [message] else [];
    }

    /** Obeys events from the front; done of them were. */
    method PlayEvents(fd: nat, buffer: seq<byte>) returns (ok: bool, sent: seq<Control>, ghost done: nat)
      requires Valid()
      modifies this`ffGain
      ensures done <= |RecordsIn(buffer)|
      ensures var es := Bodies(RecordsIn(buffer))[..done];
        ffGain == GainAfter(old(ffGain), es) && sent == Messages(effectSlots[..], fd, old(ffGain), es)
      ensures ok ==> done == |RecordsIn(buffer)|
      ensures !ok ==>
        && done < |RecordsIn(buffer)|
        && var p := Play(effectSlots[..], fd, ffGain, RecordsIn(buffer)[done].event); (p.Refused? || p.Send?)
    {
      ghost var es := Bodies(RecordsIn(buffer));
      assert es[..0] == [];
      WholeRecords(buffer);
      sent, done := [], 0;
      for i := 0 to |buffer| / EVENT_SIZE
        invariant done == i
        invariant ffGain == GainAfter(old(ffGain), es[..i])
        invariant sent == Messages(effectSlots[..], fd, old(ffGain), es[..i])
      {
        var e := EventAt(buffer, i);
        PlayOne(effectSlots[..], fd, old(ffGain), es, i);
        var good, more := PlayEvent(fd, e);
        if !good {
          return false, sent, done;
        }
        sent, done := sent + more, done + 1;
      }
      ok := true;
    }

    /**
     * The write hook for an opened device: all of its events are obeyed, or those before the first
     * that is refused or cannot be sent.
     */
    method Write(fd: nat, buffer: seq<byte>) returns (result: int, sent: seq<Control>, ghost done: nat)
      requires Valid() && IndexOf(Contents().fds, fd) >= 0
      modifies this`ffGain
      ensures Valid() && done <= |RecordsIn(buffer)|
      ensures var es := Bodies(RecordsIn(buffer))[..done];
        ffGain == GainAfter(old(ffGain), es) && sent == Messages(effectSlots[..], fd, old(ffGain), es)
      ensures result ==
        if |buffer| % EVENT_SIZE == 0 && Playable(Contents().fds, fd) && done == |RecordsIn(buffer)| then |buffer| else -1
      ensures |buffer| % EVENT_SIZE == 0 && Playable(Contents().fds, fd) && done < |RecordsIn(buffer)| ==>
        var p := Play(effectSlots[..], fd, ffGain, RecordsIn(buffer)[done].event); p.Refused? || p.Send?
    {
      sent, done := [], 0;
      var f := FindFakeFd(fd);
      if fakeFds[f].joydev || |buffer| % EVENT_SIZE != 0 {
        assert Bodies(RecordsIn(buffer))[..0] == [];
        return -1, sent, done;
      }
      var ok;
      ok, sent, done := PlayEvents(fd, buffer);
      result := if ok then |buffer| else -1;
    }

    // -------------------------------------------------------------------- read

    /** Completes the record of entry i, as far as the stream goes. */
    method FillRecord(i: nat, budget: nat) returns (r: ReadResult, left: nat, ghost data: seq<byte>)
      requires i < fakeFds.Length && |fakeFds[i].raw| < EVENT_SIZE
      modifies fakeFds
      ensures fakeFds[..] == old(fakeFds[..])[i := old(fakeFds[i]).(raw := old(fakeFds[i].raw) + data)]
      ensures |fakeFds[i].raw| <= EVENT_SIZE && (r.Some? <==> |fakeFds[i].raw| == EVENT_SIZE)
      ensures left <= budget && (r.Some? ==> left < budget)
    {
      left, data := budget, [];
      r := Some([]);
      ghost var raw := fakeFds[i].raw;
      assert raw + [] == raw;
      while |fakeFds[i].raw| < EVENT_SIZE
        invariant |fakeFds[i].raw| <= EVENT_SIZE
        invariant fakeFds[..] == old(fakeFds[..])[i := old(fakeFds[i]).(raw := raw + data)]
        invariant left <= budget && (data != [] ==> left < budget)
        decreases left
      {
        r, left := RealRead(EVENT_SIZE - |fakeFds[i].raw|, left);
        if !r.Some? {
          return;
        }
        Regroup(raw, data, r.data);
        fakeFds[i] := fakeFds[i].(raw := fakeFds[i].raw + r.data);
        data := data + r.data;
      }
      r := Some([]);
    }

    /** The complete record r is converted into the caller's next slot, and may end the initial events. */
    method ConvertInto(i: nat, events: array<JsEvent>, produced: nat, ghost r: Record) returns (made: bool)
      requires i < fakeFds.Length && produced < events.Length
      requires |fakeFds[i].raw| == EVENT_SIZE && r == DecodeRecord(fakeFds[i].raw)
      modifies fakeFds, events
      ensures var f := old(fakeFds[i]);
        && fakeFds[..] == old(fakeFds[..])[i := f.(raw := [], initializing := f.initializing && !IsReport(r.event))]
        && events[..produced] == old(events[..produced])
        && made == Convert(f.initializing, r).Made?
        && (made ==> events[produced] == Convert(f.initializing, r).event)
    {
      var record := DecodeRecord(fakeFds[i].raw);
      var initializing := fakeFds[i].initializing;
      fakeFds[i] := fakeFds[i].(raw := []);
      events[produced] := JsEvent(Milliseconds(record.time), 0, 0, 0);
      if record.event.kind == EV_SYN && record.event.code == SYN_REPORT {
        fakeFds[i] := fakeFds[i].(initializing := false);
      }
      var c := Convert(initializing, record);
      made := c.Made?;
      if made {
        events[produced] := c.event;
      }
    }

    /** data has completed the record r that g had begun. */
    method ConvertNext(i: nat, events: array<JsEvent>, produced: nat, ghost f: FakeFd, ghost received: seq<byte>,
                       ghost g: FakeFd, ghost data: seq<byte>, ghost r: Record) returns (count: nat)
      requires i < fakeFds.Length && produced < events.Length && |fakeFds[i].raw| == EVENT_SIZE
      requires fakeFds[i] == g.(raw := g.raw + data) && ReadSoFar(f, received, g, events[..produced])
      requires r == DecodeRecord(g.raw + data)
      modifies fakeFds, events
      ensures produced <= count <= produced + 1
      ensures fakeFds[..] == old(fakeFds[..])[i := fakeFds[i]]
      ensures ReadSoFar(f, received + data, fakeFds[i], events[..count])
    {
      ghost var out := events[..produced];
      ReadGoesOn(f, received, g, out, data, r);
      var made := ConvertInto(i, events, produced, r);
      count := if made then produced + 1 else produced;
      assert events[..count] == out + (if made then [events[produced]] else []);
    }

    /** One turn of the read hook: the next record, converted, or the end of what there is. */
    method ReadRecord(i: nat, events: array<JsEvent>, produced: nat, budget: nat, ghost f: FakeFd, ghost received: seq<byte>)
      returns (last: ReadResult, left: nat, count: nat, ghost data: seq<byte>)
      requires i < fakeFds.Length && |fakeFds[i].raw| < EVENT_SIZE && produced < events.Length
      requires ReadSoFar(f, received, fakeFds[i], events[..produced])
      modifies fakeFds, events
      ensures produced <= count <= produced + 1 && (!last.Some? ==> count == produced)
      ensures left <= budget && (last.Some? ==> left < budget)
      ensures fakeFds[..] == old(fakeFds[..])[i := fakeFds[i]]
      ensures ReadSoFar(f, received + data, fakeFds[i], events[..count])
    {
      ghost var g := fakeFds[i];
      count := produced;
      last, left, data := FillRecord(i, budget);
      if last.Some? {
        count := ConvertNext(i, events, produced, f, received, g, data, DecodeRecord(g.raw + data));
      } else {
        ReadStops(f, received, g, events[..produced], data);
      }
    }

    /**
     * The read hook of a joystick: received is what the socket gave during this call. All complete
     * records of it are converted, the beginning of the next is kept for the next call, and 0 is
     * returned at the end of the stream only.
     */
    method ReadJoydev(i: nat, events: array<JsEvent>) returns (result: int, last: ReadResult, ghost received: seq<byte>)
      requires i < fakeFds.Length && |fakeFds[i].raw| < EVENT_SIZE && 0 < events.Length
      modifies fakeFds, events
      ensures fakeFds[..] == old(fakeFds[..])[i := fakeFds[i]]
      ensures var n := |GivenOut(old(fakeFds[i]), received)|;
        && n <= events.Length && ReadSoFar(old(fakeFds[i]), received, fakeFds[i], events[..n])
        && result == if n > 0 then JS_EVENT_SIZE * n else if last.End? then 0 else -1
      ensures last.Some? ==> result == JS_EVENT_SIZE * events.Length
    {
      var budget: nat := *;
      var produced := 0;
      received, last := [], Some([]);
      ghost var f := fakeFds[i];
      ReadStarts(f);
      while produced < events.Length && last.Some?
        invariant produced <= events.Length && |fakeFds[i].raw| < EVENT_SIZE
        invariant ReadSoFar(f, received, fakeFds[i], events[..produced])
        invariant fakeFds[..] == old(fakeFds[..])[i := fakeFds[i]]
        decreases budget, last.Some?
      {
        ghost var data;
        last, budget, produced, data := ReadRecord(i, events, produced, budget, f, received);
        received := received + data;
      }
      result := if produced > 0 then JS_EVENT_SIZE * produced else if last.End? then 0 else -1;
    }

    /** The read hook for an opened joystick; a missing or too small buffer is an error. */
    method Read(fd: nat, events: array?<JsEvent>) returns (result: int, ghost eof: bool, ghost received: seq<byte>)
      requires Valid() && IndexOf(Contents().fds, fd) >= 0 && !Playable(Contents().fds, fd)
      modifies fakeFds, events
      ensures Valid() && Contents() == ReadBy(old(Contents()), fd, received)
      ensures events == null || events.Length == 0 ==> result == -1 && received == []
      ensures events != null && events.Length > 0 ==>
        var out := GivenOut(Lookup(old(Contents()).fds, fd)[0], received);
        && |out| <= events.Length && events[..|out|] == out
        && result == if out != [] then JS_EVENT_SIZE * |out| else if eof then 0 else -1
    {
      received, eof := [], false;
      var i := FindFakeFd(fd);
      if events == null || events.Length == 0 {
        NothingFed(fakeFds[i]);
        assert fakeFds[..fakeCount] == fakeFds[..fakeCount][i := fakeFds[i]];
        return -1, eof, received;
      }
      ghost var before := fakeFds[..];
      ghost var last;
      result, last, received := ReadJoydev(i, events);
      eof := last.End?;
      assert fakeFds[..fakeCount] == before[..fakeCount][i := fakeFds[i]];
      assert forall k :: 0 <= k < fakeCount && k != i ==> fakeFds[k] == before[k];
    }
  }

  /** During a read: what was received since it began has been converted, up to the last whole record. */
  ghost predicate ReadSoFar(f: FakeFd, received: seq<byte>, g: FakeFd, out: seq<JsEvent>) {
    g == Fed(f, received) && out == GivenOut(f, received)
  }

  lemma ReadStarts(f: FakeFd)
    requires |f.raw| < EVENT_SIZE
    ensures ReadSoFar(f, [], f, [])
  {
    NothingFed(f);
  }

  lemma ReadStops(f: FakeFd, received: seq<byte>, g: FakeFd, out: seq<JsEvent>, data: seq<byte>)
    requires ReadSoFar(f, received, g, out) && |g.raw| + |data| < EVENT_SIZE
    ensures ReadSoFar(f, received + data, g.(raw := g.raw + data), out)
  {
    Regroup(f.raw, received, data);
    OneMorePiece(f.raw + received, data);
  }

  lemma ReadGoesOn(f: FakeFd, received: seq<byte>, g: FakeFd, out: seq<JsEvent>, data: seq<byte>, r: Record)
    requires ReadSoFar(f, received, g, out) && |g.raw| + |data| == EVENT_SIZE && r == DecodeRecord(g.raw + data)
    ensures var c := Convert(g.initializing, r);
      ReadSoFar(f, received + data, g.(raw := [], initializing := g.initializing && !IsReport(r.event)),
                out + (if c.Made? then [c.event] else []))
  {
    Regroup(f.raw, received, data);
    OneMorePiece(f.raw + received, data);
    OneMoreRecord(f.initializing, RecordsIn(f.raw + received), DecodeRecord(g.raw + data));
  }
}
