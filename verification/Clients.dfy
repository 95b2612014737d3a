/** One entry of the bridge's client table: its output queue, its command buffer and its rumble request. */
module Clients {
  import opened Bytes
  import opened Protocol
  import opened HubModel

  const CONTROL_BUFFER_SIZE := 256

  /** What the kernel answers to a send; zero bytes and hard errors are both failures to the bridge. */
  datatype SendResult = Accepted(n: nat) | WouldBlock | Interrupted | Failed

  /** Any answer is possible, but only finitely many interruptions can happen in one call of the bridge. */
  method Send(size: nat, interrupts: nat) returns (r: SendResult, left: nat)
    requires size > 0
    ensures r.Accepted? ==> 0 < r.n <= size
    ensures left <= interrupts && (r.Interrupted? ==> left < interrupts)
  {
    left := interrupts;
    if
    case true => var n: nat :| 0 < n <= size; r := Accepted(n);
    case interrupts > 0 => r := Interrupted; left := interrupts - 1;
    case true => r := WouldBlock;
    case true => r := Failed;
  }

  /** What the kernel answers to a recv; Gone is the end of the stream or a hard error. */
  datatype RecvResult = Got(data: seq<byte>) | NotYet | Gone

  method Recv(room: nat) returns (r: RecvResult)
    requires room > 0
    ensures r.Got? ==> 0 < |r.data| <= room
  {
    if
    case true =>
      var data: seq<byte> :| 0 < |data| <= room by { assert |[0 as byte]| == 1; }
      r := Got(data);
    case true => r := NotYet;
    case true => r := Gone;
  }

  lemma MoveAcross(a: seq<byte>, b: seq<byte>, n: nat)
    requires n <= |b|
    ensures (a + b[..n]) + b[n..] == a + b
  {}

  /** The fixed output buffer of one client. */
  class OutputQueue {
    const index: nat
    const buffer: array<byte>
    var used: nat
    ghost var queued: seq<byte>     // bytes handed to the queue since connect
    ghost var accepted: seq<byte>   // bytes of them the socket took

    /** Conservation: what the socket took, followed by the buffer, is what was queued. */
    ghost predicate Valid()
      reads this, buffer
    {
      && buffer.Length == CLIENT_BUFFER_SIZE
      && used <= buffer.Length
      && accepted + buffer[..used] == queued
    }

    constructor (index: nat)
      ensures Valid() && fresh(buffer) && this.index == index && queued == [] && accepted == []
    {
      this.index := index;
      buffer := new byte[CLIENT_BUFFER_SIZE](_ => 0);
      used, queued, accepted := 0, [], [];
    }

    /** A new connection, or the end of one: whatever was still in the buffer is forgotten. */
    method Clear(ghost opening: bool)
      requires Valid()
      modifies this
      ensures Valid() && queued == accepted == if opening then [] else old(accepted)
    {
      used := 0;
      accepted := if opening then [] else accepted;
      queued := accepted;
    }

    /** memmove: the first n bytes are gone. */
    method Shift(n: nat)
      requires n <= used <= buffer.Length
      modifies this`used, buffer
      ensures used == old(used) - n && buffer[..used] == old(buffer[..used])[n..]
    {
      used := used - n;
      forall i | 0 <= i < used { buffer[i] := buffer[i + n]; }
    }

    /** memcpy: data behind what is there. */
    method Append(data: seq<byte>)
      requires used + |data| <= buffer.Length
      modifies this`used, buffer
      ensures used == old(used) + |data| && buffer[..used] == old(buffer[..used]) + data
    {
      forall i | 0 <= i < |data| { buffer[used + i] := data[i]; }
      used := used + |data|;
    }

    /** Sends until the buffer is empty, the socket would block (both fine) or it fails; last is its last answer. */
    method FlushClient() returns (ok: bool, ghost last: SendResult)
      requires Valid()
      modifies this`used, this`accepted, buffer
      ensures Valid() && old(accepted) <= accepted
      ensures if ok then used == 0 || last.WouldBlock? else used > 0 && last.Failed?
    {
      var interrupts: nat := *;
      last := WouldBlock;
      while used > 0
        invariant Valid() && old(accepted) <= accepted
        decreases used, interrupts
      {
        var r;
        r, interrupts := Send(used, interrupts);
        last := r;
        match r
        case Accepted(n) =>
          MoveAcross(accepted, buffer[..used], n);
          accepted := accepted + buffer[..n];
          Shift(n);
        case Interrupted =>
        case WouldBlock => return true, last;
        case Failed => return false, last;
      }
      ok := true;
    }

    /** A message that does not fit into what is left of the buffer is not queued at all. */
    method QueueBytes(data: seq<byte>) returns (ok: bool)
      requires Valid()
      modifies this, buffer
      ensures Valid() && old(accepted) <= accepted
      ensures if old(|queued| - |accepted|) + |data| <= CLIENT_BUFFER_SIZE then queued == old(queued) + data
              else !ok && queued == old(queued) && accepted == old(accepted)
    {
      if |data| > buffer.Length - used {
        return false;
      }
      Append(data);
      queued := queued + data;
      ghost var last;
      ok, last := FlushClient();
    }
  }

  /** The fixed buffer in which one client's commands are put together. */
  class CommandBuffer {
    const index: nat
    const buffer: array<byte>
    var used: nat

    ghost predicate Valid()
      reads this
    {
      buffer.Length == CONTROL_BUFFER_SIZE && used <= buffer.Length
    }

    /** What has been received and not yet parsed. */
    ghost function Left(): seq<byte>
      requires Valid()
      reads this, buffer
    {
      buffer[..used]
    }

    constructor (index: nat)
      ensures Valid() && fresh(buffer) && this.index == index && used == 0
    {
      this.index := index;
      buffer := new byte[CONTROL_BUFFER_SIZE](_ => 0);
      used := 0;
    }

    /** A connection begins or ends: nothing half read. */
    method Clear()
      requires Valid()
      modifies this
      ensures Valid() && used == 0
    {
      used := 0;
    }

    /** Bytes from the socket go behind what is left of the last ones. */
    method Receive(data: seq<byte>)
      requires Valid() && used + |data| <= CONTROL_BUFFER_SIZE
      modifies this, buffer
      ensures Valid() && Left() == old(Left()) + data
    {
      forall i | 0 <= i < |data| { buffer[used + i] := data[i]; }
      used := used + |data|;
    }

    /** The first n bytes leave the buffer, the rest moves down. */
    method Drop(n: nat)
      requires Valid() && n <= used
      modifies this, buffer
      ensures Valid() && Left() == old(Left())[n..]
    {
      used := used - n;
      forall i | 0 <= i < used { buffer[i] := buffer[i + n]; }
    }

    /** The next command leaves the buffer; one with a bad header stays where it is. */
    method Take() returns (good: bool, c: Control)
      requires Valid() && CONTROL_SIZE <= used
      modifies this, buffer
      ensures Valid()
      ensures c == DecodeControl(old(Left())[..CONTROL_SIZE]) && good == GoodHeader(c)
      ensures Left() == if good then old(Left())[CONTROL_SIZE..] else old(Left())
    {
      c := DecodeControl(buffer[..CONTROL_SIZE]);
      assert buffer[..CONTROL_SIZE] == Left()[..CONTROL_SIZE];
      good := c.magic == CONTROL_MAGIC && c.version == CONTROL_VERSION;
      if good {
        Drop(CONTROL_SIZE);
      }
    }
  }

  class Client {
    const index: nat
    const queue: OutputQueue
    const commands: CommandBuffer
    var open: bool
    var kind: Kind
    var rumbleLow: u16
    var rumbleHigh: u16
    var rumbleExpires: nat

    /** The part of a slot that this object holds. */
    ghost predicate Shows(s: Slot)
      reads this
    {
      && open == s.open && kind == s.kind
      && rumbleLow == s.low && rumbleHigh == s.high && rumbleExpires == s.expires
    }

    constructor (index: nat)
      ensures queue.Valid() && commands.Valid() && fresh(queue) && fresh(queue.buffer)
      ensures fresh(commands) && fresh(commands.buffer)
      ensures this.index == queue.index == commands.index == index && Shows(FREE_SLOT)
      ensures queue.queued == [] && queue.accepted == [] && commands.used == 0
    {
      this.index := index;
      queue := new OutputQueue(index);
      commands := new CommandBuffer(index);
      open, kind := false, Uninitialized;
      rumbleLow, rumbleHigh, rumbleExpires := 0, 0, 0;
    }

    /** Drops the request once its time is over. */
    method StillPlaying(now: nat, ghost s: Slot) returns (playing: bool)
      requires Shows(s)
      modifies this
      ensures Shows(Lapse(s, now)) && playing == Playing(Lapse(s, now))
    {
      if !open || (rumbleLow == 0 && rumbleHigh == 0) {
        return false;
      }
      if rumbleExpires <= now {
        rumbleLow, rumbleHigh, rumbleExpires := 0, 0, 0;
        return false;
      }
      return true;
    }

    method SetRequest(low: u16, high: u16, expires: nat)
      modifies this
      ensures open == old(open) && kind == old(kind)
      ensures rumbleLow == low && rumbleHigh == high && rumbleExpires == expires
    {
      rumbleLow, rumbleHigh, rumbleExpires := low, high, expires;
    }

    /** The entry is free, or taken by a fresh connection. */
    method Reset(open: bool)
      modifies this
      ensures this.open == open && kind == Uninitialized
      ensures rumbleLow == 0 && rumbleHigh == 0 && rumbleExpires == 0
    {
      this.open, kind := open, Uninitialized;
      rumbleLow, rumbleHigh, rumbleExpires := 0, 0, 0;
    }
  }
}
