/** The preloaded shim as a value: its table of opened devices and the effects they own. */
module ShimModel {
  import opened Bytes
  import opened Protocol
  import opened ForceFeedback
  import opened Joydev

  const MAX_FAKE_FDS := 128

  /** One opened device; raw is the beginning of a record that has not arrived completely. */
  datatype FakeFd = FakeFd(fd: nat, joydev: bool, initializing: bool, raw: seq<byte>, descriptor: DeviceDescriptor)

  datatype Shim = Shim(fds: seq<FakeFd>, effects: Effects, gain: u16)

  /** The first entry of a file, or -1. */
  function IndexOf(t: seq<FakeFd>, fd: int): (i: int)
    ensures -1 <= i < |t|
    ensures i >= 0 ==> t[i].fd == fd && forall k :: 0 <= k < i ==> t[k].fd != fd
    ensures i < 0 ==> forall k :: 0 <= k < |t| ==> t[k].fd != fd
  {
    if t == [] then -1
    else
      var i := IndexOf(t[..|t| - 1], fd);
      if i >= 0 then i else if t[|t| - 1].fd == fd then |t| - 1 else -1
  }

  function Fresh(fd: nat, joydev: bool, d: DeviceDescriptor): FakeFd {
    FakeFd(fd, joydev, joydev, [], d)
  }

  function Added(t: seq<FakeFd>, fd: int, joydev: bool, d: DeviceDescriptor): seq<FakeFd> {
    if fd < 0 || IndexOf(t, fd) >= 0 || |t| >= MAX_FAKE_FDS then t else t + [Fresh(fd, joydev, d)]
  }

  /** The last entry takes the place of the deleted one. */
  function Deleted(t: seq<FakeFd>, fd: int): seq<FakeFd> {
    var i := IndexOf(t, fd);
    if i < 0 then t else t[i := t[|t| - 1]][..|t| - 1]
  }

  /** Force feedback goes to files opened as evdev devices. */
  predicate Playable(t: seq<FakeFd>, fd: int) {
    IndexOf(t, fd) >= 0 && !t[IndexOf(t, fd)].joydev
  }

  // ------------------------------------------------------------------ operations

  function Opened(s: Shim, fd: int, joydev: bool, d: DeviceDescriptor): Shim {
    s.(fds := Added(s.fds, fd, joydev, d))
  }

  function UploadedTo(s: Shim, fd: nat, u: Upload): Shim {
    if Playable(s.fds, fd) then s.(effects := Uploaded(s.effects, fd, u)) else s
  }

  function ErasedFrom(s: Shim, fd: nat, id: int): Shim {
    if Playable(s.fds, fd) then s.(effects := Erased(s.effects, fd, id)) else s
  }

  function Closed(s: Shim, fd: nat): Shim {
    Shim(Deleted(s.fds, fd), if Playable(s.fds, fd) then Cleared(s.effects, fd) else s.effects, s.gain)
  }

  /** A joystick's entry after bytes of its stream. */
  function Fed(f: FakeFd, received: seq<byte>): FakeFd {
    var s := f.raw + received;
    f.(raw := Rest(s, EVENT_SIZE), initializing := StillInitial(f.initializing, RecordsIn(s)))
  }

  /** What a read call hands out for them. */
  function GivenOut(f: FakeFd, received: seq<byte>): seq<JsEvent> {
    JoyEvents(f.initializing, RecordsIn(f.raw + received))
  }

  function ReadBy(s: Shim, fd: nat, received: seq<byte>): Shim {
    var i := IndexOf(s.fds, fd);
    if i < 0 then s else s.(fds := s.fds[i := Fed(s.fds[i], received)])
  }

  datatype Operation =
    | Read(fd: nat, received: seq<byte>)
    | Open(newFd: int, joydev: bool, descriptor: DeviceDescriptor)
    | UploadEffect(fd: nat, upload: Upload)
    | EraseEffect(fd: nat, id: int)
    | Close(fd: nat)

  function Applied(s: Shim, o: Operation): Shim {
    match o
    case Open(fd, joydev, d) => Opened(s, fd, joydev, d)
    case UploadEffect(fd, u) => UploadedTo(s, fd, u)
    case EraseEffect(fd, id) => ErasedFrom(s, fd, id)
    case Close(fd) => Closed(s, fd)
    case Read(fd, received) => ReadBy(s, fd, received)
  }

  function AppliedAll(s: Shim, os: seq<Operation>): Shim {
    if os == [] then s else Applied(AppliedAll(s, os[..|os| - 1]), os[|os| - 1])
  }

  // ------------------------------------------------------------------- invariant

  ghost predicate Distinct(t: seq<FakeFd>) {
    forall i, j :: 0 <= i < j < |t| ==> t[i].fd != t[j].fd
  }

  /** Every effect belongs to a file that is open for force feedback. */
  ghost predicate Owned(s: Shim) {
    && Distinct(s.fds) && |s.fds| <= MAX_FAKE_FDS
    && forall k :: 0 <= k < 16 && s.effects[k].used ==> Playable(s.fds, s.effects[k].fd)
  }

  /** With distinct files an entry is the entry of its file. */
  lemma {:induction false} IndexUnique(t: seq<FakeFd>, i: nat)
    requires Distinct(t) && i < |t|
    ensures IndexOf(t, t[i].fd) == i
  {}

  /** What the table says about a file. */
  function Lookup(t: seq<FakeFd>, fd: int): seq<FakeFd> {
    if IndexOf(t, fd) >= 0 then [t[IndexOf(t, fd)]] else []
  }

  lemma {:induction false} AddedLookup(t: seq<FakeFd>, fd: int, joydev: bool, d: DeviceDescriptor, other: int)
    requires Distinct(t)
    ensures Distinct(Added(t, fd, joydev, d))
    ensures Lookup(Added(t, fd, joydev, d), other) ==
      if other == fd && fd >= 0 && IndexOf(t, fd) < 0 && |t| < MAX_FAKE_FDS then [Fresh(fd, joydev, d)] else Lookup(t, other)
  {
    var r := Added(t, fd, joydev, d);
    if |r| > |t| {
      assert r[..|t|] == t;
    }
  }

  /** Deleting an entry leaves every other file's entry, partial record included, as it was. */
  lemma {:induction false} DeletedLookup(t: seq<FakeFd>, fd: int, other: int)
    requires Distinct(t)
    ensures Distinct(Deleted(t, fd))
    ensures Lookup(Deleted(t, fd), other) == if other == fd then [] else Lookup(t, other)
  {
    var i, r := IndexOf(t, fd), Deleted(t, fd);
    if i >= 0 {
      assert forall k :: 0 <= k < |r| ==> r[k] == if k == i then t[|t| - 1] else t[k];
      var j := IndexOf(t, other);
      if j >= 0 && other != fd {
        var k := if j == |t| - 1 then i else j;
        assert r[k] == t[j];
        IndexUnique(r, k);
      }
    }
  }

  /** Reading one file changes no other file's entry. */
  lemma {:induction false} ReadLookup(s: Shim, fd: nat, received: seq<byte>, other: int)
    requires Distinct(s.fds)
    ensures Distinct(ReadBy(s, fd, received).fds)
    ensures Lookup(ReadBy(s, fd, received).fds, other) ==
      if other == fd && Lookup(s.fds, fd) != [] then [Fed(Lookup(s.fds, fd)[0], received)] else Lookup(s.fds, other)
  {
    var r := ReadBy(s, fd, received).fds;
    assert |r| == |s.fds| && forall k :: 0 <= k < |r| ==> r[k].fd == s.fds[k].fd;
    var i := IndexOf(r, other);
    if i >= 0 {
      IndexUnique(s.fds, i);
    }
  }

  lemma PlayableLookup(t: seq<FakeFd>, fd: int)
    ensures Playable(t, fd) <==> Lookup(t, fd) != [] && !Lookup(t, fd)[0].joydev
  {}

  lemma OperationKeeps(s: Shim, o: Operation)
    requires Owned(s)
    ensures Owned(Applied(s, o))
  {
    var r := Applied(s, o);
    forall k | 0 <= k < 16 && r.effects[k].used ensures Playable(r.fds, r.effects[k].fd) {
      var fd := r.effects[k].fd;
      match o
      case Open(newFd, joydev, d) =>
        AddedLookup(s.fds, newFd, joydev, d, fd);
        PlayableLookup(s.fds, fd);
        PlayableLookup(r.fds, fd);
      case Close(closed) =>
        DeletedLookup(s.fds, closed, fd);
        PlayableLookup(s.fds, fd);
        PlayableLookup(r.fds, fd);
      case Read(read, received) =>
        ReadLookup(s, read, received, fd);
        PlayableLookup(s.fds, fd);
        PlayableLookup(r.fds, fd);
      case _ =>
    }
    match o
    case Open(newFd, joydev, d) => AddedLookup(s.fds, newFd, joydev, d, newFd);
    case Close(closed) => DeletedLookup(s.fds, closed, closed);
    case Read(read, received) => ReadLookup(s, read, received, read);
    case _ =>
  }

  /** In every run of open, upload, remove and close, each used slot has a live owner. */
  lemma {:induction false} RunOwned(s: Shim, os: seq<Operation>)
    requires Owned(s)
    ensures Owned(AppliedAll(s, os))
  {
    if os != [] {
      RunOwned(s, os[..|os| - 1]);
      OperationKeeps(AppliedAll(s, os[..|os| - 1]), os[|os| - 1]);
    }
  }

  /**
   * Closing a file forgets it, frees its effects and no others, and leaves every other file alone.
   */
  lemma CloseFrees(s: Shim, fd: nat, other: nat)
    requires Owned(s)
    ensures var r := Closed(s, fd);
      && Lookup(r.fds, fd) == []
      && (other != fd ==> Lookup(r.fds, other) == Lookup(s.fds, other))
      && forall k :: 0 <= k < 16 ==> Owner(r.effects, k) == if Owner(s.effects, k) == fd then -1 else Owner(s.effects, k)
  {
    DeletedLookup(s.fds, fd, fd);
    DeletedLookup(s.fds, fd, other);
    if Playable(s.fds, fd) {
      ClearOwns(s.effects, fd);
    } else {
      assert forall k :: 0 <= k < 16 && s.effects[k].used ==> s.effects[k].fd != fd;
    }
  }

  /** A file number used again starts empty: no effects, no partial record. */
  lemma ReopenIsFresh(s: Shim, fd: nat, joydev: bool, d: DeviceDescriptor)
    requires Owned(s) && Lookup(s.fds, fd) != []
    ensures var r := Opened(Closed(s, fd), fd, joydev, d);
      && Lookup(r.fds, fd) == [Fresh(fd, joydev, d)]
      && forall k :: 0 <= k < 16 ==> Owner(r.effects, k) != fd
  {
    CloseFrees(s, fd, fd);
    DeletedLookup(s.fds, fd, fd);
    AddedLookup(Closed(s, fd).fds, fd, joydev, d, fd);
  }

  /** The reads of one joystick, whatever happens to other files in between. */
  function ReadsOf(fd: nat, os: seq<Operation>): seq<seq<byte>> {
    if os == [] then []
    else
      var o := os[|os| - 1];
      ReadsOf(fd, os[..|os| - 1]) + (if o.Read? && o.fd == fd then [o.received] else [])
  }

  /** What they hand out, one call after the other. */
  function HandedOut(s: Shim, fd: nat, os: seq<Operation>): seq<JsEvent> {
    if os == [] then []
    else
      var before, o := AppliedAll(s, os[..|os| - 1]), os[|os| - 1];
      HandedOut(s, fd, os[..|os| - 1]) +
        (if o.Read? && o.fd == fd && Lookup(before.fds, fd) != [] then GivenOut(Lookup(before.fds, fd)[0], o.received) else [])
  }

  lemma FedMore(f: FakeFd, a: seq<byte>, b: seq<byte>)
    ensures Fed(Fed(f, a), b) == Fed(f, a + b)
    ensures GivenOut(f, a + b) == GivenOut(f, a) + GivenOut(Fed(f, a), b)
  {
    var s := f.raw + a;
    Regroup(f.raw, a, b);
    CutsCompose(s, b, EVENT_SIZE);
    RecordsInAppend(s, b);
    JoyEventsAppend(f.initializing, RecordsIn(s), RecordsIn(Rest(s, EVENT_SIZE) + b));
  }

  ghost predicate Untouched(fd: nat, os: seq<Operation>) {
    forall o :: o in os ==> !(o.Close? && o.fd == fd)
  }

  lemma OneUndisturbed(s: Shim, fd: nat, o: Operation)
    requires Owned(s) && Lookup(s.fds, fd) != [] && !(o.Close? && o.fd == fd)
    ensures Lookup(Applied(s, o).fds, fd) ==
      [if o.Read? && o.fd == fd then Fed(Lookup(s.fds, fd)[0], o.received) else Lookup(s.fds, fd)[0]]
  {
    match o
    case Open(newFd, joydev, d) => AddedLookup(s.fds, newFd, joydev, d, fd);
    case Close(closed) => DeletedLookup(s.fds, closed, fd);
    case Read(read, received) => ReadLookup(s, read, received, fd);
    case _ =>
  }

  lemma NothingFed(f: FakeFd)
    requires |f.raw| < EVENT_SIZE
    ensures Fed(f, []) == f && GivenOut(f, []) == []
  {
    assert f.raw + [] == f.raw;
    assert RecordsIn(f.raw) == [];
  }

  /**
   * A joystick that stays open hands out, over all its reads, the conversion of its whole stream:
   * other files being opened, read and closed, and its entry moving in the table, make no difference.
   */
  lemma {:induction false} JoystickUndisturbed(s: Shim, fd: nat, os: seq<Operation>)
    requires Owned(s) && Lookup(s.fds, fd) != [] && |Lookup(s.fds, fd)[0].raw| < EVENT_SIZE && Untouched(fd, os)
    ensures var f, all := Lookup(s.fds, fd)[0], Join(ReadsOf(fd, os));
      && Lookup(AppliedAll(s, os).fds, fd) == [Fed(f, all)]
      && HandedOut(s, fd, os) == GivenOut(f, all)
  {
    var f := Lookup(s.fds, fd)[0];
    if os == [] {
      NothingFed(f);
    } else {
      var front, o := os[..|os| - 1], os[|os| - 1];
      assert o in os;
      JoystickUndisturbed(s, fd, front);
      RunOwned(s, front);
      OneUndisturbed(AppliedAll(s, front), fd, o);
      if o.Read? && o.fd == fd {
        JoinPush(ReadsOf(fd, front), o.received);
        FedMore(f, Join(ReadsOf(fd, front)), o.received);
      } else {
        assert ReadsOf(fd, front) + [] == ReadsOf(fd, front);
      }
    }
  }
}
