/** The bridge process: the broadcasts, the command parser and the motor arbitration. */
module Bridge {
  import opened Bytes
  import opened Protocol
  import opened Controller
  import opened HubModel
  import opened HubSteps
  import opened HubLaws
  import opened ParserLaws
  import opened Clients
  import opened Packets

  class Server {
    const clients: seq<Client>
    var pad: Pad
    var deviceId: s32
    var capabilities: u16
    var descriptor: DeviceDescriptor
    var activeLow: u16
    var activeHigh: u16
    var clock: nat              // the last reading of the monotonic clock
    ghost var state: Hub        // all of it as one value; the slots' histories and the motor exist only here
    ghost const home: map<object, int>

    ghost function Queues(): set<object> {
      (set c | c in clients :: c.queue) + (set c | c in clients :: c.queue.buffer)
    }

    ghost function Commands(): set<object> {
      (set c | c in clients :: c.commands) + (set c | c in clients :: c.commands.buffer)
    }

    /** An entry of the table as the constructor makes it. */
    static ghost predicate Built(c: Client, k: int, where: map<object, int>)
      reads c, c.commands, c.queue, c.queue.buffer
    {
      && c.index == k && c.queue.index == k && c.commands.index == k
      && c.queue.buffer in where && where[c.queue.buffer] == k
      && c.commands.buffer in where && where[c.commands.buffer] == -1 - k
      && c.Shows(FREE_SLOT) && c.commands.Valid() && c.commands.used == 0
      && c.queue.Valid() && c.queue.queued == [] && c.queue.accepted == []
    }

    /** Sixteen clients with objects and buffers of their own; this never changes. */
    ghost predicate Separate() {
      && |clients| == MAX_CLIENTS
      && forall k :: 0 <= k < MAX_CLIENTS ==>
           && clients[k].index == k && clients[k].queue.index == k && clients[k].commands.index == k
           && clients[k].queue.buffer in home && home[clients[k].queue.buffer] == k
           && clients[k].commands.buffer in home && home[clients[k].commands.buffer] == -1 - k
           && clients[k].commands.buffer.Length == CONTROL_BUFFER_SIZE
    }

    ghost predicate TiedClients(slots: Slots)
      requires Separate()
      reads clients
    {
      forall k {:trigger clients[k]} {:trigger slots[k]} :: 0 <= k < MAX_CLIENTS ==> clients[k].Shows(slots[k])
    }

    /** The fields and the table entries are what state says. */
    ghost predicate Tied()
      requires Separate()
      reads this, clients
    {
      && state == Hub(state.slots, pad, deviceId, capabilities, descriptor,
                      activeLow, activeHigh, state.motor, clock, state.epoch)
      && TiedClients(state.slots)
    }

    /** Queue k holds the unsent part of the messages logged for an open slot. */
    ghost predicate TiedQueue(k: nat, s: Slot)
      requires Separate() && k < MAX_CLIENTS
      reads clients[k].queue, clients[k].queue.buffer
    {
      && clients[k].queue.Valid()
      && |clients[k].queue.accepted| == s.sent <= |LogBytes(s.log)|
      && (s.open ==> clients[k].queue.queued == LogBytes(s.log))
    }

    ghost predicate TiedQueues(slots: Slots)
      requires Separate()
      reads Queues()
    {
      forall k {:trigger clients[k]} {:trigger slots[k]} :: 0 <= k < MAX_CLIENTS ==> TiedQueue(k, slots[k])
    }

    ghost predicate Valid()
      requires Separate()
      reads this, clients, Queues(), Commands()
    {
      Tied() && TiedQueues(state.slots) && TiedCommands(state.slots)
    }

    /** Command buffer k holds the unparsed bytes of slot k. */
    ghost predicate TiedCommand(k: nat, s: Slot)
      requires Separate() && k < MAX_CLIENTS
      reads clients[k].commands, clients[k].commands.buffer
    {
      clients[k].commands.Valid() && clients[k].commands.Left() == s.left
    }

    ghost predicate TiedCommands(slots: Slots)
      requires Separate()
      reads Commands()
    {
      forall k {:trigger clients[k]} {:trigger slots[k]} :: 0 <= k < MAX_CLIENTS ==> TiedCommand(k, slots[k])
    }

    /** Between two turns of the main loop no client has a whole command waiting. */
    ghost predicate AtRest()
      reads this`state
    {
      Resting(state)
    }

    /** The server is none of its clients' parts. */
    lemma Apart()
      requires Separate()
      ensures this !in Queues() && this !in Commands()
    {}

    /** The command buffer of one client is no part of any queue or of another client. */
    lemma CommandsApart(i: nat)
      requires Separate() && i < MAX_CLIENTS
      ensures clients[i].commands !in Queues() && clients[i].commands.buffer !in Queues()
      ensures forall k :: 0 <= k < MAX_CLIENTS && k != i ==>
        clients[k].commands != clients[i].commands && clients[k].commands.buffer != clients[i].commands.buffer
    {}

    static method BuildClients() returns (table: seq<Client>, ghost where: map<object, int>)
      ensures |table| == MAX_CLIENTS
      ensures forall k {:trigger table[k]} :: 0 <= k < MAX_CLIENTS ==> Built(table[k], k, where)
      ensures forall k :: 0 <= k < MAX_CLIENTS ==> fresh(table[k]) && fresh(table[k].queue) && fresh(table[k].commands)
      ensures forall k :: 0 <= k < MAX_CLIENTS ==> fresh(table[k].queue.buffer) && fresh(table[k].commands.buffer)
    {
      table, where := [], map[];
      for n := 0 to MAX_CLIENTS
        invariant |table| == n
        invariant forall k {:trigger table[k]} :: 0 <= k < n ==> Built(table[k], k, where)
        invariant forall k :: 0 <= k < n ==> fresh(table[k]) && fresh(table[k].queue) && fresh(table[k].commands)
        invariant forall k :: 0 <= k < n ==> fresh(table[k].queue.buffer) && fresh(table[k].commands.buffer)
      {
        var c := new Client(n);
        where := where[c.queue.buffer := n][c.commands.buffer := -1 - n];
        table := table + [c];
      }
    }

    constructor ()
      ensures Separate() && Valid() && AtRest() && Initial(state)
      ensures fresh(Queues()) && fresh(Commands()) && forall c :: c in clients ==> fresh(c)
    {
      var table;
      ghost var where;
      table, where := BuildClients();
      clients, home := table, where;
      var now: nat := *;
      pad, deviceId, capabilities, descriptor := ZERO_PAD, -1, 0, NO_DEVICE;
      activeLow, activeHigh, clock := 0, 0, now;
      state := Hub(seq(16, _ => FREE_SLOT), ZERO_PAD, -1, 0, NO_DEVICE, 0, 0, Silent, now, 0);
    }

    /** The parts have changed; state follows. */
    ghost method Adopt(h: Hub)
      requires Separate() && TiedClients(h.slots) && TiedQueues(h.slots) && TiedCommands(h.slots)
      requires h == Hub(h.slots, pad, deviceId, capabilities, descriptor, activeLow, activeHigh, h.motor, clock, h.epoch)
      modifies this`state
      ensures state == h && Valid()
    {
      Apart();
      state := h;
    }

    /** Time never runs backwards. */
    method MonotonicMs() returns (now: nat)
      ensures clock <= now
    {
      now :| clock <= now;
    }

    // ----------------------------------------------------------------- rumble

    /** Without a rumble-capable device nothing is sent. */
    method SendRumble(low: u16, high: u16, duration: u32) returns (r: Sending)
      ensures r.Sent? <==> deviceId >= 0 && capabilities % 2 == 1
      ensures r.Sent? ==> r.request.device == deviceId % 0x1_0000
      ensures r.Sent? ==> if low == 0 && high == 0 then r.request.StopMotor?
                          else r.request == RunMotor(r.request.device, LORIE_CONTROLLER_EFFECT_MAIN, low, high, duration)
    {
      if deviceId < 0 || capabilities % 2 != 1 {
        return Unsent;
      }
      var device: u16 := deviceId % 0x1_0000;
      if low == 0 && high == 0 {
        r := Sent(StopMotor(device));
      } else {
        r := Sent(RunMotor(device, LORIE_CONTROLLER_EFFECT_MAIN, low, high, duration));
      }
    }

    /** Lets client i's request lapse, or reports it. */
    method Request(i: nat, now: nat, ghost slots: Slots) returns (playing: bool, low: u16, high: u16, remaining: nat)
      requires i < MAX_CLIENTS && Separate() && TiedClients(slots)
      modifies clients
      ensures TiedClients(slots[i := Lapse(slots[i], now)])
      ensures var s := Lapse(slots[i], now);
        playing == Playing(s) &&
        (playing ==> low == s.low && high == s.high && now + remaining == s.expires > now)
    {
      var c := clients[i];
      playing := c.StillPlaying(now, slots[i]);
      low, high, remaining := c.rumbleLow, c.rumbleHigh, if playing then c.rumbleExpires - now else 0;
    }

    /** Lets requests lapse and finds the strongest of the others. */
    method Strongest(now: nat) returns (low: u16, high: u16, longest: nat)
      requires Separate() && TiedClients(state.slots)
      modifies clients
      ensures TiedClients(LapseAll(state.slots, now))
      ensures var p := PeakOf(LapseAll(state.slots, now));
        low == p.low && high == p.high && longest == Remaining(p, now)
    {
      low, high, longest := 0, 0, 0;
      ghost var slots, p := state.slots, Peak(0, 0, 0);
      for i := 0 to MAX_CLIENTS
        invariant TiedClients(slots)
        invariant forall k :: 0 <= k < MAX_CLIENTS ==> slots[k] == if k < i then Lapse(state.slots[k], now) else state.slots[k]
        invariant p == PeakOf(slots[..i])
        invariant low == p.low && high == p.high && longest == Remaining(p, now)
      {
        ghost var front := slots[..i];
        var playing, l, h, remaining := Request(i, now, slots);
        if playing {
          low, high := if l > low then l else low, if h > high then h else high;
          longest := if remaining > longest then remaining else longest;
        }
        slots := slots[i := Lapse(slots[i], now)];
        assert slots[..i] == front;
        PeakStep(slots, i, now);
        p := PeakOf(slots[..i + 1]);
      }
      assert slots[..16] == slots == LapseAll(state.slots, now);
    }

    /** The motor command, if one is due. */
    method Command(force: bool, now: nat, low: u16, high: u16, longest: nat) returns (r: Sending)
      ensures r.Sent? ==> r.request.device == deviceId % 0x1_0000
      ensures MotorAfter(state.motor, r, now) ==
              Told(state.motor, deviceId >= 0 && capabilities % 2 == 1, activeLow, activeHigh, force, now, low, high, longest)
    {
      r := Unsent;
      if low == 0 && high == 0 {
        if activeLow != 0 || activeHigh != 0 {
          r := SendRumble(0, 0, 0);
        }
      } else if force || low != activeLow || high != activeHigh {
        var duration: u32 := if longest > U32_MAX then U32_MAX else longest;
        if duration == 0 {
          duration := 1;
        }
        r := SendRumble(low, high, duration);
      }
    }

    method Arbitrate(force: bool)
      requires Separate() && Tied()
      modifies this, clients
      ensures Tied() && old(clock) <= clock
      ensures state == HubModel.UpdateRumble(old(state), force, clock)
    {
      var now := MonotonicMs();
      var low, high, longest := Strongest(now);
      var sent := Command(force, now, low, high, longest);
      activeLow, activeHigh, clock := low, high, now;
      state := state.(slots := LapseAll(state.slots, now), motor := MotorAfter(state.motor, sent, now),
                      activeLow := low, activeHigh := high, clock := now);
    }

    /** Queues and unparsed bytes do not depend on requests. */
    lemma BuffersStayTied(s: Slots, t: Slots)
      requires Separate() && TiedQueues(s) && TiedCommands(s)
      requires forall k :: 0 <= k < MAX_CLIENTS ==> Quiet(s[k], t[k])
      ensures TiedQueues(t) && TiedCommands(t)
    {}

    method UpdateRumble(force: bool)
      requires Separate() && Valid()
      modifies this, clients
      ensures Valid() && old(clock) <= clock
      ensures state == HubModel.UpdateRumble(old(state), force, clock)
    {
      ghost var s := state.slots;
      Arbitrate(force);
      BuffersStayTied(s, state.slots);
    }

    // ----------------------------------------------------------------- queues

    method CloseClient(i: nat)
      requires i < MAX_CLIENTS && Separate() && Valid()
      modifies this, clients, clients[i].queue, clients[i].commands
      ensures Valid() && old(clock) <= clock
      ensures state == HubModel.CloseClient(old(state), i, clock)
    {
      assert clients[i].Shows(state.slots[i]);
      var hadRumble := clients[i].rumbleLow != 0 || clients[i].rumbleHigh != 0;
      Vacate(i);
      if hadRumble {
        UpdateRumble(true);
      }
    }

    /** The entry of the table becomes free, or is taken by a fresh connection. */
    method ResetClient(i: nat, open: bool, ghost t: Slot)
      requires i < MAX_CLIENTS && Separate() && TiedClients(state.slots) && TiedQueues(state.slots) && TiedCommands(state.slots)
      requires t.open == open && t.kind == Uninitialized && t.low == 0 && t.high == 0 && t.expires == 0
      modifies clients[i]
      ensures TiedClients(state.slots[i := t]) && TiedQueues(state.slots) && TiedCommands(state.slots)
    {
      clients[i].Reset(open);
    }

    /** Its queue is emptied; what was sent remains known until the next connection. */
    method ResetQueue(i: nat, ghost opening: bool, ghost slots: Slots)
      requires i < MAX_CLIENTS && Separate() && TiedClients(slots) && TiedQueues(state.slots) && TiedCommands(state.slots)
      modifies clients[i].queue
      ensures TiedClients(slots) && TiedCommands(state.slots)
      ensures TiedQueues(state.slots[i := if opening then FRESH_SLOT else Closed(state.slots[i])])
    {
      assert TiedQueue(i, state.slots[i]);
      clients[i].queue.Clear(opening);
      assert forall k :: 0 <= k < MAX_CLIENTS && k != i ==> unchanged(clients[k].queue) && unchanged(clients[k].queue.buffer);
    }

    /** No command is half read. */
    method ResetCommands(i: nat, ghost slots: Slots)
      requires i < MAX_CLIENTS && Separate() && TiedClients(slots) && TiedQueues(slots) && TiedCommands(state.slots)
      requires slots == state.slots[i := slots[i]] && slots[i].left == []
      modifies clients[i].commands
      ensures TiedClients(slots) && TiedQueues(slots) && TiedCommands(slots)
    {
      CommandsApart(i);
      assert TiedCommand(i, state.slots[i]);
      clients[i].commands.Clear();
      assert forall k :: 0 <= k < MAX_CLIENTS && k != i ==> unchanged(clients[k].commands) && unchanged(clients[k].commands.buffer);
      assert clients[i].commands.Left() == [];
    }

    method Vacate(i: nat)
      requires i < MAX_CLIENTS && Separate() && Valid()
      modifies this`state, clients[i], clients[i].queue, clients[i].commands
      ensures Valid()
      ensures state == WithSlot(old(state), i, Closed(old(state).slots[i]))
    {
      ghost var t := Closed(state.slots[i]);
      ResetClient(i, false, t);
      ResetQueue(i, false, state.slots[i := t]);
      ResetCommands(i, state.slots[i := t]);
      Adopt(WithSlot(state, i, t));
    }

    method Occupy(i: nat)
      requires i < MAX_CLIENTS && Separate() && Valid()
      modifies this`state, clients[i], clients[i].queue, clients[i].commands
      ensures Valid()
      ensures state == WithSlot(old(state), i, FRESH_SLOT)
    {
      ResetClient(i, true, FRESH_SLOT);
      ResetQueue(i, true, state.slots[i := FRESH_SLOT]);
      ResetCommands(i, state.slots[i := FRESH_SLOT]);
      Adopt(WithSlot(state, i, FRESH_SLOT));
    }

    /** A queue that moves on changes nothing else about its client. */
    lemma QueueMovesOn(i: nat, t: Slot)
      requires i < MAX_CLIENTS && Separate() && TiedClients(state.slots) && TiedCommands(state.slots)
      requires t == state.slots[i].(log := t.log, sent := t.sent)
      ensures TiedClients(state.slots[i := t]) && TiedCommands(state.slots[i := t])
    {
      assert TiedCommand(i, state.slots[i]) && clients[i].Shows(state.slots[i]);
    }

    /** The same on the queues alone: t is what becomes of slot i. */
    method Enqueue(i: nat, ghost m: Msg, data: seq<byte>) returns (ok: bool, ghost t: Slot)
      requires i < MAX_CLIENTS && Separate() && Valid() && state.slots[i].open && data == m.bytes
      modifies clients[i].queue, clients[i].queue.buffer
      ensures TiedClients(state.slots) && TiedQueues(state.slots[i := t]) && TiedCommands(state.slots)
      ensures WellSent(state.slots[i]) && Queued(state.slots[i], t, m, ok)
    {
      ghost var s := state.slots;
      assert TiedQueue(i, s[i]);
      LogBytesPush(s[i].log, m);
      ok := clients[i].queue.QueueBytes(data);
      t := s[i].(log := if Fits(s[i], m) then s[i].log + [m] else s[i].log, sent := |clients[i].queue.accepted|);
      assert forall k :: 0 <= k < MAX_CLIENTS && k != i ==> unchanged(clients[k].queue) && unchanged(clients[k].queue.buffer);
    }

    method QueueTo(i: nat, ghost m: Msg, data: seq<byte>) returns (ok: bool)
      requires i < MAX_CLIENTS && Separate() && Valid() && state.slots[i].open && data == m.bytes
      modifies this`state, clients[i].queue, clients[i].queue.buffer
      ensures Valid()
      ensures state == WithSlot(old(state), i, state.slots[i])
      ensures WellSent(old(state).slots[i]) && Queued(old(state).slots[i], state.slots[i], m, ok)
    {
      ghost var t;
      ok, t := Enqueue(i, m, data);
      QueueMovesOn(i, t);
      Adopt(WithSlot(state, i, t));
    }

    /** Queues a message for one client and closes it when that fails. */
    method Deliver(i: nat, ghost m: Msg, data: seq<byte>) returns (ghost g: Hub, ghost ok: bool)
      requires i < MAX_CLIENTS && Separate() && Valid() && state.slots[i].open && data == m.bytes
      modifies this, clients, clients[i].queue, clients[i].queue.buffer, clients[i].commands
      ensures Valid() && old(clock) <= clock
      ensures WellSent(old(state).slots[i]) && Queued(old(state).slots[i], g.slots[i], m, ok)
      ensures g == WithSlot(old(state), i, g.slots[i])
      ensures state == if ok then g else HubModel.CloseClient(g, i, clock)
    {
      var queued := QueueTo(i, m, data);
      g, ok := state, queued;
      if !queued {
        CloseClient(i);
      }
    }

    /** The next client of a broadcast. */
    method BroadcastTo(i: nat, kind: Kind, ghost m: Msg, data: seq<byte>, ghost h: Hub)
      requires i < MAX_CLIENTS && Separate() && Valid() && data == m.bytes
      requires BroadcastUpTo(h, state, kind, m, i)
      modifies this, clients, clients[i].queue, clients[i].queue.buffer, clients[i].commands
      ensures Valid()
      ensures BroadcastUpTo(h, state, kind, m, i + 1)
    {
      ghost var g := state;
      assert clients[i].Shows(state.slots[i]);
      if clients[i].open && clients[i].kind == kind {
        ghost var queued, ok := Deliver(i, m, data);
        DeliveredOne(g, queued, state, i, m, ok, clock);
      }
      BroadcastAdvance(h, g, state, kind, m, i);
    }

    /** One message for every client of a kind; whoever cannot take it is closed. */
    method Broadcast(kind: Kind, ghost m: Msg, data: seq<byte>)
      requires Separate() && Valid() && data == m.bytes
      modifies this, clients, Queues(), Commands()
      ensures Valid()
      ensures Broadcasted(old(state), state, kind, m)
    {
      ghost var h := state;
      EffectNone(h);
      for i := 0 to MAX_CLIENTS
        invariant Valid()
        invariant BroadcastUpTo(h, state, kind, m, i)
      {
        BroadcastTo(i, kind, m, data, h);
      }
    }

    /**
     * Conservation and framing: the socket has taken a beginning of the whole messages queued since
     * connect, the buffer holds exactly the rest, and the rest fits the buffer.
     */
    lemma QueueConserves(i: nat)
      requires i < MAX_CLIENTS && Separate() && Valid() && state.slots[i].open
      ensures var s, q := state.slots[i], clients[i].queue;
        && s.sent <= |LogBytes(s.log)| && q.used <= q.buffer.Length == CLIENT_BUFFER_SIZE
        && q.accepted == LogBytes(s.log)[..s.sent] && q.buffer[..q.used] == LogBytes(s.log)[s.sent..]
    {
      assert TiedQueue(i, state.slots[i]);
    }

    // ------------------------------------------------------------ connections

    method AcceptClient() returns (ghost at: nat)
      requires Separate() && Valid()
      modifies this`state, clients, Queues(), Commands()
      ensures Valid()
      ensures AcceptedAt(old(state), state, at)
    {
      for slot := 0 to MAX_CLIENTS
        invariant forall j :: 0 <= j < slot ==> state.slots[j].open
      {
        assert clients[slot].Shows(state.slots[slot]);
        if !clients[slot].open {
          Occupy(slot);
          return slot;
        }
      }
      at := MAX_CLIENTS;
    }

    // --------------------------------------------------------------- commands

    method SetRequest(i: nat, low: u16, high: u16, expires: nat)
      requires i < MAX_CLIENTS && Separate() && TiedClients(state.slots) && TiedQueues(state.slots) && TiedCommands(state.slots)
      modifies clients[i]
      ensures TiedClients(state.slots[i := state.slots[i].(low := low, high := high, expires := expires)])
      ensures TiedQueues(state.slots) && TiedCommands(state.slots)
    {
      assert clients[i].Shows(state.slots[i]);
      clients[i].SetRequest(low, high, expires);
    }

    method Tick(now: nat)
      requires Separate() && Valid()
      modifies this`clock
      ensures clock == now
      ensures TiedClients(state.slots) && TiedQueues(state.slots) && TiedCommands(state.slots)
    {
      Apart();
      clock := now;
    }

    method SetRumble(i: nat, low: u16, high: u16, expires: nat, now: nat)
      requires i < MAX_CLIENTS && Separate() && Valid() && clock <= now
      modifies this`clock, this`state, clients[i]
      ensures Valid()
      ensures state == WithSlot(old(state), i, old(state).slots[i].(low := low, high := high, expires := expires)).(clock := now)
    {
      ghost var t := state.slots[i].(low := low, high := high, expires := expires);
      Tick(now);
      SetRequest(i, low, high, expires);
      BuffersStayTied(state.slots, state.slots[i := t]);
      Adopt(WithSlot(state, i, t).(clock := now));
    }

    method Rumble(i: nat, c: Control) returns (ghost t: nat)
      requires i < MAX_CLIENTS && Separate() && Valid()
      modifies this, clients
      ensures Valid()
      ensures Rumbled(old(state), state, i, c, t)
    {
      var duration: nat := if c.duration != 0 then c.duration else DEFAULT_RUMBLE_MS;
      ghost var h := state;
      var now := MonotonicMs();
      t := now;
      SetRumble(i, c.low, c.high, now + duration, now);
      ghost var k := state;
      assert k == WithSlot(h, i, h.slots[i].(low := c.low, high := c.high, expires := t + RumbleMs(c))).(clock := t);
      UpdateRumble(true);
      RumbledIs(h, k, state, i, c, t);
    }

    method StopRumble(i: nat)
      requires i < MAX_CLIENTS && Separate() && Valid()
      modifies this, clients
      ensures Valid() && Stopped(old(state), state, i)
    {
      SetRumble(i, 0, 0, 0, clock);
      UpdateRumble(true);
    }

    method SetKind(i: nat, kind: Kind)
      requires i < MAX_CLIENTS && Separate() && TiedClients(state.slots) && TiedQueues(state.slots) && TiedCommands(state.slots)
      modifies clients[i]
      ensures TiedClients(state.slots[i := Greeted(state, i, kind)])
      ensures TiedQueues(state.slots) && TiedCommands(state.slots)
    {
      assert clients[i].Shows(state.slots[i]);
      clients[i].kind := kind;
    }

    lemma GreetedBuffers(i: nat, kind: Kind)
      requires i < MAX_CLIENTS && Separate() && TiedQueues(state.slots) && TiedCommands(state.slots)
      ensures TiedQueues(state.slots[i := Greeted(state, i, kind)])
      ensures TiedCommands(state.slots[i := Greeted(state, i, kind)])
    {
      assert TiedQueue(i, state.slots[i]) && TiedCommand(i, state.slots[i]);
    }

    method GreetClient(i: nat, kind: Kind)
      requires i < MAX_CLIENTS && Separate() && Valid()
      modifies this`state, clients[i]
      ensures Valid()
      ensures state == WithSlot(old(state), i, Greeted(old(state), i, kind))
    {
      SetKind(i, kind);
      GreetedBuffers(i, kind);
      Adopt(WithSlot(state, i, Greeted(state, i, kind)));
    }

    /** Queues the whole state for one client; a client that cannot take it is closed. */
    method SendSnapshot(i: nat) returns (ghost m: Msg)
      requires i < MAX_CLIENTS && Separate() && Valid() && state.slots[i].open
      modifies this, clients, clients[i].queue, clients[i].queue.buffer, clients[i].commands
      ensures Valid()
      ensures SnapshotMsg(m, old(state).pad)
      ensures Elsewhere(old(state), state, i) && Delivered(old(state).slots[i], state.slots[i], m)
    {
      ghost var h := state;
      var events := BuildSnapshot(pad);
      m := Wrap(Events(events));
      ghost var g, ok := Deliver(i, m, EncodeRecords(events));
      DeliveredOne(h, g, state, i, m, ok, clock);
    }

    method SendDescriptor(i: nat) returns (ok: bool)
      requires i < MAX_CLIENTS && Separate() && Valid() && state.slots[i].open
      modifies this`state, clients[i], clients[i].queue, clients[i].queue.buffer
      ensures Valid()
      ensures WellSent(old(state).slots[i]) && state == WithSlot(old(state), i, state.slots[i])
      ensures Queued(Greeted(old(state), i, EventClient), state.slots[i], DescriptorMsg(old(state)), ok)
    {
      GreetClient(i, EventClient);
      ok := QueueTo(i, Wrap(Descriptor(descriptor)), EncodeDescriptor(descriptor));
    }

    method AnswerQuery(i: nat) returns (ok: bool)
      requires i < MAX_CLIENTS && Separate() && Valid() && state.slots[i].open
      modifies this, clients, clients[i].queue, clients[i].queue.buffer, clients[i].commands
      ensures Valid()
      ensures QueryAnswered(old(state), state, i, ok)
    {
      ghost var h := state;
      ok := SendDescriptor(i);
      QueryQueued(h, state, i, ok);
      if ok && descriptor.present != 0 {
        ghost var g := state;
        ghost var m := SendSnapshot(i);
        QuerySnapshot(h, g, state, i, m);
      }
    }

    method AnswerMonitor(i: nat) returns (ok: bool)
      requires i < MAX_CLIENTS && Separate() && Valid() && state.slots[i].open
      modifies this`state, clients[i], clients[i].queue, clients[i].queue.buffer
      ensures Valid()
      ensures MonitorAnswered(old(state), state, i, ok)
    {
      ghost var h := state;
      GreetClient(i, MonitorClient);
      var action := if descriptor.present != 0 then HOTPLUG_ADD else HOTPLUG_REMOVE;
      var hotplug := Hotplug(HOTPLUG_MAGIC, CONTROL_VERSION, action, descriptor);
      ok := QueueTo(i, Wrap(Announce(hotplug)), EncodeHotplug(hotplug));
      MonitorQueued(h, state, i, ok);
    }

    /** RUMBLE and STOP: nothing is queued. */
    method ExecuteRumble(i: nat, c: Control)
      requires i < MAX_CLIENTS && Separate() && Valid() && c.command in {CONTROL_RUMBLE, CONTROL_STOP_RUMBLE}
      requires state.slots[i].open
      modifies this, clients
      ensures Valid()
      ensures Performed(old(state), state, i, c, true)
    {
      if c.command == CONTROL_RUMBLE {
        ghost var t := Rumble(i, c);
      } else {
        StopRumble(i);
      }
    }

    /** QUERY and MONITOR; anything else is an error of the client's. */
    method ExecuteAnswer(i: nat, c: Control) returns (ok: bool)
      requires i < MAX_CLIENTS && Separate() && Valid() && state.slots[i].open
      requires c.command !in {CONTROL_RUMBLE, CONTROL_STOP_RUMBLE}
      modifies this, clients, clients[i].queue, clients[i].queue.buffer, clients[i].commands
      ensures Valid()
      ensures Performed(old(state), state, i, c, ok)
    {
      if c.command == CONTROL_QUERY_DESCRIPTOR {
        ok := AnswerQuery(i);
      } else if c.command == CONTROL_MONITOR {
        ok := AnswerMonitor(i);
      } else {
        ok := false;
      }
    }

    method Execute(i: nat, c: Control) returns (ok: bool)
      requires i < MAX_CLIENTS && Separate() && Valid() && state.slots[i].open
      modifies this, clients, clients[i].queue, clients[i].queue.buffer, clients[i].commands
      ensures Valid()
      ensures Performed(old(state), state, i, c, ok)
    {
      if c.command == CONTROL_RUMBLE || c.command == CONTROL_STOP_RUMBLE {
        ExecuteRumble(i, c);
        ok := true;
      } else {
        ok := ExecuteAnswer(i, c);
      }
    }

    /** Client i's bytes that are not yet a whole command. */
    lemma Unparsed(i: nat)
      requires i < MAX_CLIENTS && Separate() && Valid()
      ensures clients[i].commands.Valid() && clients[i].commands.Left() == state.slots[i].left
      ensures clients[i].commands.used == |state.slots[i].left|
    {
      assert TiedCommand(i, state.slots[i]);
    }

    /** The same on the buffer alone: t is what becomes of slot i. */
    method TakeBytes(i: nat) returns (good: bool, c: Control, ghost t: Slot)
      requires i < MAX_CLIENTS && Separate() && Valid() && CONTROL_SIZE <= |state.slots[i].left|
      modifies clients[i].commands, clients[i].commands.buffer
      ensures TiedClients(state.slots) && TiedQueues(state.slots) && TiedCommands(state.slots[i := t])
      ensures t == if good then TakenOff(state.slots[i]) else state.slots[i]
      ensures c == DecodeControl(state.slots[i].left[..CONTROL_SIZE]) && good == GoodHeader(c)
    {
      CommandsApart(i);
      Unparsed(i);
      good, c := clients[i].commands.Take();
      t := if good then TakenOff(state.slots[i]) else state.slots[i];
      assert TiedCommand(i, t);
      assert forall k :: 0 <= k < MAX_CLIENTS && k != i ==> unchanged(clients[k].commands) && unchanged(clients[k].commands.buffer);
    }

    /** The first command leaves the buffer, unless its header is bad. */
    method TakeCommand(i: nat) returns (good: bool, c: Control)
      requires i < MAX_CLIENTS && Separate() && Valid() && CONTROL_SIZE <= |state.slots[i].left|
      modifies this`state, clients[i].commands, clients[i].commands.buffer
      ensures Valid()
      ensures Offers(old(state).slots[i], c) && good == GoodHeader(c)
      ensures state == if good then Taken(old(state), i) else old(state)
    {
      ghost var t;
      good, c, t := TakeBytes(i);
      OffersDecoded(state.slots[i], c);
      Adopt(WithSlot(state, i, t));
    }

    method HearBytes(i: nat, data: seq<byte>)
      requires i < MAX_CLIENTS && Separate() && Valid() && |state.slots[i].left| + |data| <= CONTROL_BUFFER_SIZE
      modifies clients[i].commands, clients[i].commands.buffer
      ensures TiedClients(state.slots) && TiedQueues(state.slots) && TiedCommands(state.slots[i := Hearing(state.slots[i], data)])
    {
      CommandsApart(i);
      Unparsed(i);
      clients[i].commands.Receive(data);
      assert forall k :: 0 <= k < MAX_CLIENTS && k != i ==> unchanged(clients[k].commands) && unchanged(clients[k].commands.buffer);
    }

    method ReceiveBytes(i: nat, data: seq<byte>)
      requires i < MAX_CLIENTS && Separate() && Valid() && |state.slots[i].left| + |data| <= CONTROL_BUFFER_SIZE
      modifies this`state, clients[i].commands, clients[i].commands.buffer
      ensures Valid() && state == WithSlot(old(state), i, Hearing(old(state).slots[i], data))
    {
      HearBytes(i, data);
      Adopt(WithSlot(state, i, Hearing(state.slots[i], data)));
    }

    /** The first command in the buffer: checked, taken off the front and obeyed. */
    method ServeOne(i: nat) returns (good: bool, ok: bool, ghost c: Control)
      requires i < MAX_CLIENTS && Separate() && Valid() && state.slots[i].open && CONTROL_SIZE <= |state.slots[i].left|
      modifies this, clients, clients[i].queue, clients[i].queue.buffer, clients[i].commands, clients[i].commands.buffer
      ensures Valid()
      ensures Offers(old(state).slots[i], c) && good == GoodHeader(c)
      ensures if good then Performed(Taken(old(state), i), state, i, c, ok) else !ok && state == old(state)
    {
      var command;
      good, command := TakeCommand(i);
      c, ok := command, false;
      if good {
        ok := Execute(i, command);
      }
    }

    /** Runs the complete commands in the buffer, until one is invalid or fails or the client is closed. */
    method ServeCommands(i: nat) returns (ok: bool, good: bool)
      requires i < MAX_CLIENTS && Separate() && Valid() && state.slots[i].open && ParserLaw(state.slots[i])
      modifies this, clients, clients[i].queue, clients[i].queue.buffer, clients[i].commands, clients[i].commands.buffer
      ensures Valid()
      ensures Parsing(old(state), state, i, ok, good)
      ensures ok ==> good && |state.slots[i].left| < CONTROL_SIZE
    {
      ghost var h := state;
      good, ok := true, true;
      ParsingNone(h, i);
      Unparsed(i);
      while clients[i].commands.used >= CONTROL_SIZE
        invariant Valid() && clients[i].commands.used == |state.slots[i].left|
        invariant Parsing(h, state, i, true, true)
        decreases |state.slots[i].left|
      {
        ghost var g := state;
        assert ParserLaw(g.slots[i]);
        ghost var c;
        good, ok, c := ServeOne(i);
        if !good {
          ParsingStops(h, g, i, c);
          return;
        }
        ParsingMore(h, g, state, i, c, ok);
        Unparsed(i);
        if !ok {
          return;
        }
      }
    }

    /** One recv and everything that can be parsed from it; when it is not ok the caller closes the client. */
    method ReceiveControl(i: nat) returns (ok: bool, good: bool, ghost chunk: seq<byte>)
      requires i < MAX_CLIENTS && Separate() && Valid() && state.slots[i].open
      requires ParserLaw(state.slots[i]) && |state.slots[i].left| < CONTROL_SIZE
      modifies this, clients, clients[i].queue, clients[i].queue.buffer, clients[i].commands, clients[i].commands.buffer
      ensures Valid()
      ensures Received(old(state), state, i, chunk, ok, good)
    {
      Unparsed(i);
      chunk := [];
      if clients[i].commands.used == CONTROL_BUFFER_SIZE {
        return false, false, chunk;
      }
      var received := Recv(CONTROL_BUFFER_SIZE - clients[i].commands.used);
      match received {
        case Gone =>
          ok, good := false, false;
          ReceivedNone(state, i, false);
        case NotYet =>
          ok, good := true, true;
          ReceivedNone(state, i, true);
        case Got(data) =>
          chunk := data;
          ok, good := ServeChunk(i, data);
      }
    }

    method ServeChunk(i: nat, data: seq<byte>) returns (ok: bool, good: bool)
      requires i < MAX_CLIENTS && Separate() && Valid() && state.slots[i].open
      requires ParserLaw(state.slots[i]) && |state.slots[i].left| + |data| <= CONTROL_BUFFER_SIZE
      modifies this, clients, clients[i].queue, clients[i].queue.buffer, clients[i].commands, clients[i].commands.buffer
      ensures Valid()
      ensures Received(old(state), state, i, data, ok, good)
    {
      ghost var h := state;
      HearingParses(h.slots[i], data);
      ReceiveBytes(i, data);
      ghost var g := state;
      ok, good := ServeCommands(i);
      ReceivedChunk(h, g, state, i, data, ok, good);
    }

    /** The same on the queues alone. */
    method FlushQueue(i: nat) returns (ok: bool, ghost t: Slot)
      requires i < MAX_CLIENTS && Separate() && Valid() && state.slots[i].open
      modifies clients[i].queue, clients[i].queue.buffer
      ensures TiedClients(state.slots) && TiedQueues(state.slots[i := t]) && TiedCommands(state.slots)
      ensures t == state.slots[i].(sent := t.sent) && state.slots[i].sent <= t.sent && WellSent(t)
    {
      ghost var s := state.slots;
      assert TiedQueue(i, s[i]);
      ghost var last;
      ok, last := clients[i].queue.FlushClient();
      t := s[i].(sent := |clients[i].queue.accepted|);
      assert forall k :: 0 <= k < MAX_CLIENTS && k != i ==> unchanged(clients[k].queue) && unchanged(clients[k].queue.buffer);
    }

    method FlushSlot(i: nat) returns (ok: bool)
      requires i < MAX_CLIENTS && Separate() && Valid() && state.slots[i].open
      modifies this`state, clients[i].queue, clients[i].queue.buffer
      ensures Valid()
      ensures Flushed(old(state), state, i)
    {
      ghost var t;
      ok, t := FlushQueue(i);
      QueueMovesOn(i, t);
      Adopt(WithSlot(state, i, t));
    }

    method ServeInput(i: nat)
      requires i < MAX_CLIENTS && Separate() && Valid() && state.slots[i].open
      requires ParserInv(state) && |state.slots[i].left| < CONTROL_SIZE
      modifies this, clients, clients[i].queue, clients[i].queue.buffer, clients[i].commands, clients[i].commands.buffer
      ensures Valid() && |state.slots[i].left| < CONTROL_SIZE
      ensures Reaches(old(state), state) && Parses(old(state), state, i)
    {
      ghost var h := state;
      ghost var chunk;
      var ok, good;
      ok, good, chunk := ReceiveControl(i);
      ghost var g := state;
      if !ok {
        CloseClient(i);
      }
      ReceivedCloses(h, g, state, i, chunk, ok, good);
    }

    /** What poll reported as gone is closed. */
    method DropClient(i: nat)
      requires i < MAX_CLIENTS && Separate() && Valid() && state.slots[i].open
      modifies this, clients, clients[i].queue, clients[i].commands
      ensures Valid() && state.slots[i].left == []
      ensures Reaches(old(state), state) && Parses(old(state), state, i)
    {
      ghost var g := state;
      CloseClient(i);
      CloseIdles(g, i, clock);
      Stays(g);
      ReachesMore(g, g, Step.Close(i), state);
    }

    method FlushOrDrop(i: nat) returns (ok: bool)
      requires i < MAX_CLIENTS && Separate() && Valid() && state.slots[i].open && |state.slots[i].left| < CONTROL_SIZE
      modifies this, clients, clients[i].queue, clients[i].queue.buffer, clients[i].commands
      ensures Valid() && |state.slots[i].left| < CONTROL_SIZE && (ok ==> state.slots[i].open)
      ensures Reaches(old(state), state) && Parses(old(state), state, i)
    {
      ghost var h := state;
      ok := FlushSlot(i);
      ghost var g := state;
      FlushIdles(h, g, i);
      Stays(h);
      ReachesMore(h, h, Step.Flush(i), g);
      if !ok {
        DropClient(i);
        ReachesAll(h, g, state);
        ParsesTransitive(h, g, state, i);
      }
    }

    /** One client's part of a turn of the main loop, given what poll reported for it. */
    method ServeClient(i: nat, writable: bool, broken: bool, readable: bool)
      requires i < MAX_CLIENTS && Separate() && Valid() && ParserInv(state) && |state.slots[i].left| < CONTROL_SIZE
      modifies this, clients, clients[i].queue, clients[i].queue.buffer, clients[i].commands, clients[i].commands.buffer
      ensures Valid() && |state.slots[i].left| < CONTROL_SIZE
      ensures Reaches(old(state), state) && Parses(old(state), state, i)
    {
      ghost var h := state;
      Stays(h);
      assert clients[i].Shows(state.slots[i]);
      if !clients[i].open {
        return;
      }
      if writable {
        var flushed := FlushOrDrop(i);
        if !flushed {
          return;
        }
      }
      ghost var g := state;
      if broken {
        DropClient(i);
        ReachesAll(h, g, state);
        ParsesTransitive(h, g, state, i);
      } else if readable {
        ReachesParses(h, g);
        ServeInput(i);
        ReachesAll(h, g, state);
        ParsesTransitive(h, g, state, i);
      }
    }

    // ------------------------------------------------------------- the device

    method ProcessXiEvent(device: nat, source: nat, e: XiEvent) returns (ghost packet: seq<Record>)
      requires Separate() && Valid() && ValidPad(pad) && WellFormed(e)
      modifies this, clients, Queues(), Commands()
      ensures Valid() && ValidPad(state.pad)
      ensures XiProcessed(old(state), state, device, source, e, packet)
    {
      if device != deviceId && source != deviceId {
        return [];
      }
      NextPadValid(pad, e);
      var p, events := BuildPacket(pad, e);
      packet := events;
      SetPad(p);
      if |events| > 0 {
        Broadcast(EventClient, Wrap(Events(events)), EncodeRecords(events));
      }
    }

    method SetPad(p: Pad)
      requires Separate() && Valid()
      modifies this`state, this`pad
      ensures Valid() && state == old(state).(pad := p)
    {
      Apart();
      pad := p;
      Adopt(state.(pad := p));
    }

    /** The device is gone: the controller state is zeroed, and event clients are not told. */
    method ForgetDevice()
      requires Separate() && Valid()
      modifies this`state, this`pad, this`deviceId, this`capabilities, this`descriptor
      ensures Valid() && state == Removed(old(state))
    {
      Apart();
      ghost var g := Removed(state);
      deviceId, capabilities, pad := -1, 0, ZERO_PAD;
      descriptor := descriptor.(present := 0, deviceId := -1);
      Adopt(g);
    }

    method SelectDevice(a: Probe)
      requires Separate() && Valid() && a.Found? && GoodProbe(a)
      modifies this`state, this`deviceId, this`capabilities, this`descriptor
      ensures Valid() && state == Added(old(state), a)
    {
      Apart();
      ghost var g := Added(state, a);
      deviceId, capabilities := a.deviceId, a.capabilities;
      descriptor := DeviceDescriptor(
        DEVICE_MAGIC, CONTROL_VERSION, 1, if a.capabilities % 2 == 1 then DEVICE_CAP_RUMBLE else 0,
        a.inputMode, a.vendorId, a.productId, a.deviceId, Stored(a.name));
      Adopt(g);
    }

    /** Announces the current descriptor to every monitor. */
    method BroadcastHotplug(action: byte)
      requires Separate() && Valid()
      modifies this, clients, Queues(), Commands()
      ensures Valid()
      ensures Broadcasted(old(state), state, MonitorClient, Announcement(old(state), action))
    {
      var hotplug := Hotplug(HOTPLUG_MAGIC, CONTROL_VERSION, action, descriptor);
      Broadcast(MonitorClient, Wrap(Announce(hotplug)), EncodeHotplug(hotplug));
    }

    method RemoveDevice()
      requires Separate() && Valid()
      modifies this, clients, Queues(), Commands()
      ensures Valid()
      ensures Broadcasted(Removed(old(state)), state, MonitorClient, Announcement(Removed(old(state)), HOTPLUG_REMOVE))
    {
      ForgetDevice();
      BroadcastHotplug(HOTPLUG_REMOVE);
    }

    method AddDevice(a: Probe)
      requires Separate() && Valid() && a.Found? && GoodProbe(a)
      modifies this, clients, Queues(), Commands()
      ensures Valid()
      ensures Broadcasted(Added(old(state), a), state, MonitorClient, Announcement(Added(old(state), a), HOTPLUG_ADD))
    {
      SelectDevice(a);
      BroadcastHotplug(HOTPLUG_ADD);
    }

    /** Looks for the gamepad again: 1 when one was added, -1 when it could not be selected, 0 otherwise. */
    method RefreshDevice(a: Probe) returns (result: int, ghost mid: Hub)
      requires Separate() && Valid() && GoodProbe(a)
      modifies this, clients, Queues(), Commands()
      ensures Valid()
      ensures Refreshed(old(state), mid, state, a)
      ensures result == if Unchanged(old(state), a) || a.Nothing? then 0 else if a.selectable then 1 else -1
    {
      mid := state;
      if a.Found? && a.deviceId == deviceId && capabilities == a.capabilities &&
         descriptor.inputMode == a.inputMode && descriptor.vendorId == a.vendorId &&
         descriptor.productId == a.productId && descriptor.name == Stored(a.name) {
        return 0, mid;
      }
      if deviceId >= 0 {
        RemoveDevice();
      }
      mid := state;
      if a.Nothing? {
        return 0, mid;
      }
      if !a.selectable {
        return -1, mid;
      }
      AddDevice(a);
      result := 1;
    }

    // -------------------------------------------------------------- main loop

    method HandleXInput(x: XInput)
      requires Separate() && Valid() && AtRest() && HubInv(state) && GoodInput(x)
      modifies this, clients, Queues(), Commands()
      ensures Valid() && AtRest()
      ensures Reaches(old(state), state)
    {
      ghost var h := state;
      Stays(h);
      match x {
        case HierarchyChanged(a) =>
          ghost var mid;
          var result;
          result, mid := RefreshDevice(a);
          RefreshIdles(h, mid, state, a);
          ReachesMore(h, h, Step.Refresh(a), state);
        case DeviceEvent(device, source, e) =>
          ghost var packet := ProcessXiEvent(device, source, e);
          XiIdles(h, state, device, source, e, packet);
          ReachesMore(h, h, Step.Xi(device, source, e), state);
      }
      IdleRests(h, state);
    }

    /** Everything the X server has pending. */
    method PumpXEvents(xs: seq<XInput>)
      requires Separate() && Valid() && AtRest() && HubInv(state) && forall x :: x in xs ==> GoodInput(x)
      modifies this, clients, Queues(), Commands()
      ensures Valid() && AtRest() && HubInv(state)
      ensures Reaches(old(state), state)
    {
      ghost var h := state;
      Stays(h);
      for n := 0 to |xs|
        invariant Valid() && AtRest() && HubInv(state) && Reaches(h, state)
      {
        ghost var g := state;
        HandleXInput(xs[n]);
        ReachesKept(g, state);
        ReachesAll(h, g, state);
      }
    }

    method AcceptClients(connections: nat)
      requires Separate() && Valid() && AtRest()
      modifies this`state, clients, Queues(), Commands()
      ensures Valid() && AtRest()
      ensures Reaches(old(state), state)
    {
      ghost var h := state;
      Stays(h);
      for n := 0 to connections
        invariant Valid() && AtRest() && Reaches(h, state)
      {
        ghost var g := state;
        ghost var at := AcceptClient();
        AcceptRests(g, state, at);
        ReachesMore(h, g, Step.Accept, state);
      }
    }

    method ServeClients(ready: seq<Ready>)
      requires Separate() && Valid() && AtRest() && ParserInv(state) && |ready| == MAX_CLIENTS
      modifies this, clients, Queues(), Commands()
      ensures Valid() && AtRest()
      ensures Reaches(old(state), state)
    {
      ghost var h := state;
      Stays(h);
      for i := 0 to MAX_CLIENTS
        invariant Valid() && AtRest() && ParserInv(state) && Reaches(h, state)
      {
        ghost var g := state;
        ServeClient(i, ready[i].writable, ready[i].broken, ready[i].readable);
        ParsesRests(g, state, i);
        ReachesParses(g, state);
        ReachesAll(h, g, state);
      }
    }

    /**
     * Between turns, for every client that is connected: the commands obeyed since it connected are
     * exactly the records of all it has sent since, whatever the chunks were, and its buffer holds
     * exactly the bytes behind the last of them.
     */
    lemma CommandsParsed(i: nat)
      requires i < MAX_CLIENTS && Separate() && Valid() && AtRest() && ParserInv(state) && state.slots[i].open
      ensures var s := state.slots[i];
        && s.ran == Records(s.heard, CONTROL_SIZE)
        && clients[i].commands.Valid() && clients[i].commands.Left() == Rest(s.heard, CONTROL_SIZE)
    {
      Unparsed(i);
      ParsesWholeStream(state.slots[i]);
    }

    /**
     * One turn of the main loop. Whatever the X server, the sockets and the clients do, it is a run
     * of the state machine, so every law of every run holds between turns.
     */
    method Turn(xs: seq<XInput>, connections: nat, ready: seq<Ready>, ys: seq<XInput>)
      requires Separate() && Valid() && AtRest() && HubInv(state) && ParserInv(state)
      requires |ready| == MAX_CLIENTS && forall x :: x in xs + ys ==> GoodInput(x)
      modifies this, clients, Queues(), Commands()
      ensures Valid() && AtRest() && HubInv(state) && ParserInv(state)
      ensures Reaches(old(state), state)
    {
      ghost var h := state;
      PumpXEvents(xs);
      ghost var g := state;
      AcceptClients(connections);
      ReachesAll(h, g, state);
      g := state;
      ReachesParses(h, g);
      ServeClients(ready);
      ReachesAll(h, g, state);
      ReachesKept(h, state);
      g := state;
      PumpXEvents(ys);
      ReachesAll(h, g, state);
      FinishTurn(h);
    }

    /** The periodic update lets requests lapse. */
    method FinishTurn(ghost h: Hub)
      requires Separate() && Valid() && AtRest() && HubInv(h) && ParserInv(h) && Reaches(h, state)
      modifies this, clients
      ensures Valid() && AtRest() && HubInv(state) && ParserInv(state)
      ensures Reaches(h, state)
    {
      ghost var g := state;
      UpdateRumble(false);
      UpdateIdles(g, false, clock);
      IdleRests(g, state);
      ReachesMore(h, g, Step.Update(false), state);
      ReachesKept(h, state);
      ReachesParses(h, state);
    }
  }
}
