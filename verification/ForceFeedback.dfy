/** Force feedback in the evdev shim: effect strengths, the table of sixteen effects, and playing them. */
module ForceFeedback {
  import opened Bytes
  import opened Protocol

  const MAX_EFFECTS := 16
  const FF_GAIN: u16 := 0x60
  const FULL_GAIN: u16 := 0xffff
  const DEFAULT_DURATION: u32 := 2500

  // ------------------------------------------------------------------ strengths

  datatype Condition = Condition(rightSaturation: u16, leftSaturation: u16, rightCoeff: s16, leftCoeff: s16)

  /** What an upload asks for; a condition is a spring, a damper, inertia or friction. */
  datatype Effect =
    | Rumble(strong: u16, weak: u16)
    | Constant(level: s16)
    | Periodic(magnitude: s16)
    | Ramp(startLevel: s16, endLevel: s16)
    | Conditional(x: Condition, y: Condition)
    | Unsupported(kind: u16)

  function Abs(v: int): nat { if v < 0 then -v else v }

  function ScaledAbs(v: s16): u16 {
    var a := if v < 0 then -(v as int) else v;
    (if a > 32767 then 32767 else a) * 2
  }

  function MaxOf(a: u16, b: u16): u16 { if a > b then a else b }

  function ConditionStrength(c: Condition): u16 {
    var s := if c.leftSaturation > c.rightSaturation then c.leftSaturation else c.rightSaturation;
    var t := if ScaledAbs(c.rightCoeff) > s then ScaledAbs(c.rightCoeff) else s;
    if ScaledAbs(c.leftCoeff) > t then ScaledAbs(c.leftCoeff) else t
  }

  /** The strengths of the low- and the high-frequency motor. */
  function Strengths(e: Effect): (u16, u16) {
    match e
    case Rumble(strong, weak) => (strong, weak)
    case Constant(level) => (ScaledAbs(level), ScaledAbs(level))
    case Periodic(magnitude) => (ScaledAbs(magnitude), ScaledAbs(magnitude))
    case Ramp(a, b) => (MaxOf(ScaledAbs(a), ScaledAbs(b)), MaxOf(ScaledAbs(a), ScaledAbs(b)))
    case Conditional(x, y) => (ConditionStrength(x), ConditionStrength(y))
    case Unsupported(_) => (0, 0)
  }

  /** Twice the magnitude, short of the one value whose magnitude does not fit. */
  lemma ScaledAbsExact(v: s16)
    ensures ScaledAbs(v) == if v == -0x8000 then 65534 else 2 * Abs(v)
    ensures forall u: s16 :: Abs(u) <= Abs(v) ==> ScaledAbs(u) <= ScaledAbs(v)
  {}

  /** The strongest of the four, and one of them. */
  lemma ConditionIsMaximum(c: Condition)
    ensures var s := ConditionStrength(c);
      && s >= c.leftSaturation && s >= c.rightSaturation && s >= ScaledAbs(c.leftCoeff) && s >= ScaledAbs(c.rightCoeff)
      && s in {c.leftSaturation, c.rightSaturation, ScaledAbs(c.leftCoeff), ScaledAbs(c.rightCoeff)}
  {}

  predicate SameCondition(a: Condition, b: Condition) {
    && a.rightSaturation == b.rightSaturation && a.leftSaturation == b.leftSaturation
    && Abs(a.rightCoeff) == Abs(b.rightCoeff) && Abs(a.leftCoeff) == Abs(b.leftCoeff)
  }

  /** Two effects that differ in signs only. */
  predicate SameMagnitudes(e: Effect, f: Effect) {
    match (e, f)
    case (Constant(a), Constant(b)) => Abs(a) == Abs(b)
    case (Periodic(a), Periodic(b)) => Abs(a) == Abs(b)
    case (Ramp(a, b), Ramp(c, d)) => Abs(a) == Abs(c) && Abs(b) == Abs(d)
    case (Conditional(a, b), Conditional(c, d)) => SameCondition(a, c) && SameCondition(b, d)
    case _ => e == f
  }

  lemma SignsIgnored(e: Effect, f: Effect)
    requires SameMagnitudes(e, f)
    ensures Strengths(e) == Strengths(f)
  {
  }

  /** A strength under a gain, as 32-bit arithmetic computes it. */
  function Gained(strength: u16, gain: u16): u16 {
    GainFits(strength, gain);
    strength * gain / 0xffff
  }

  lemma GainFits(strength: u16, gain: u16)
    ensures 0 <= strength * gain / 0xffff <= strength
  {
    MultiplyMonotone(strength, gain, 0xffff);
    DivideMonotone(strength * gain, strength * 0xffff);
  }

  lemma MultiplyMonotone(s: nat, a: nat, b: nat)
    requires a <= b
    ensures 0 <= s * a <= s * b
  {
    assert s * b == s * a + s * (b - a);
  }

  /** Never stronger than uploaded, stronger with more gain, unchanged at full gain, and no overflow. */
  lemma GainLaws(strength: u16, gain: u16, more: u16)
    requires gain <= more
    ensures strength * gain < 0x1_0000_0000
    ensures Gained(strength, gain) <= strength
    ensures Gained(strength, gain) <= Gained(strength, more)
    ensures Gained(strength, FULL_GAIN) == strength
  {
    GainFits(strength, gain);
    MultiplyMonotone(strength, gain, 0xffff);
    MultiplyMonotone(strength, gain, more);
    DivideMonotone(strength * gain, strength * more);
  }

  lemma DivideMonotone(a: nat, b: nat)
    requires a <= b
    ensures a / 0xffff <= b / 0xffff
  {}

  // ----------------------------------------------------------------- the table

  datatype EffectSlot = EffectSlot(used: bool, fd: nat, low: u16, high: u16, duration: u16)

  const NO_EFFECT := EffectSlot(false, 0, 0, 0, 0)

  type Effects = s: seq<EffectSlot> | |s| == 16 witness seq(16, _ => NO_EFFECT)

  /** An upload; id -1 asks for any free slot. */
  datatype Upload = Upload(id: s16, replayLength: u16, effect: Effect)

  /** The first free slot from n on, or 16. */
  function FirstFree(t: Effects, n: nat): (k: nat)
    requires n <= 16
    ensures n <= k <= 16
    ensures forall j :: n <= j < k ==> t[j].used
    ensures k < 16 ==> !t[k].used
    decreases 16 - n
  {
    if n == 16 || !t[n].used then n else FirstFree(t, n + 1)
  }

  /** The slot an upload goes to, or -1 if it is refused. */
  function Place(t: Effects, fd: nat, u: Upload): (id: int)
    ensures -1 <= id < 16
  {
    if u.effect.Unsupported? then -1
    else if u.id == -1 then (if FirstFree(t, 0) < 16 then FirstFree(t, 0) else -1)
    else if u.id < 0 || u.id >= 16 || (t[u.id].used && t[u.id].fd != fd) then -1
    else u.id
  }

  function Uploaded(t: Effects, fd: nat, u: Upload): Effects {
    var id, s := Place(t, fd, u), Strengths(u.effect);
    if id < 0 then t else t[id := EffectSlot(true, fd, s.0, s.1, u.replayLength)]
  }

  function Find(t: Effects, fd: nat, id: int): (k: int)
    ensures -1 <= k < 16
    ensures k >= 0 <==> 0 <= id < 16 && t[id].used && t[id].fd == fd
    ensures k >= 0 ==> k == id
  {
    if 0 <= id < 16 && t[id].used && t[id].fd == fd then id else -1
  }

  function Erased(t: Effects, fd: nat, id: int): Effects {
    var k := Find(t, fd, id);
    if k < 0 then t else t[k := t[k].(used := false)]
  }

  function Cleared(t: Effects, fd: nat): (r: Effects)
    ensures forall k :: 0 <= k < 16 ==> r[k] == if t[k].used && t[k].fd == fd then t[k].(used := false) else t[k]
  {
    seq(16, k requires 0 <= k < 16 => if t[k].used && t[k].fd == fd then t[k].(used := false) else t[k])
  }

  /** The owner map: which file uploaded the effect in slot k. */
  function Owner(t: Effects, k: nat): int
    requires k < 16
  {
    if t[k].used then t[k].fd else -1
  }

  /** A refused upload changes nothing; an accepted one gives its owner one slot that nobody else had. */
  lemma UploadOwns(t: Effects, fd: nat, u: Upload)
    ensures var id, r := Place(t, fd, u), Uploaded(t, fd, u);
      if id < 0 then r == t
      else
        && (Owner(t, id) == -1 || Owner(t, id) == fd) && Owner(r, id) == fd
        && (forall k :: 0 <= k < 16 && k != id ==> r[k] == t[k])
        && (u.id == -1 ==> Owner(t, id) == -1 && forall k :: 0 <= k < id ==> Owner(t, k) != -1)
        && (u.id != -1 ==> id == u.id)
  {}

  /** An automatic upload is refused only when every slot is taken. */
  lemma UploadRefused(t: Effects, fd: nat, u: Upload)
    requires !u.effect.Unsupported? && Place(t, fd, u) < 0
    ensures if u.id == -1 then forall k :: 0 <= k < 16 ==> t[k].used
            else u.id < 0 || u.id >= 16 || (Owner(t, u.id) != -1 && Owner(t, u.id) != fd)
  {}

  /** Removing frees exactly the slot asked for, and only for its owner. */
  lemma EraseOwns(t: Effects, fd: nat, id: int)
    ensures forall k :: 0 <= k < 16 ==>
      Owner(Erased(t, fd, id), k) == if k == id && Owner(t, k) == fd then -1 else Owner(t, k)
  {}

  /** Clearing frees exactly one owner's slots. */
  lemma ClearOwns(t: Effects, fd: nat)
    ensures forall k :: 0 <= k < 16 ==>
      Owner(Cleared(t, fd), k) == if Owner(t, k) == fd then -1 else Owner(t, k)
  {}

  // --------------------------------------------------------------------- playing

  /** One force-feedback event written to the device: kind, code and value. */
  datatype Played = Nothing | Gain(gain: u16) | Send(control: Control) | Refused

  function Stop(): Control {
    Control(CONTROL_MAGIC, CONTROL_VERSION, CONTROL_STOP_RUMBLE, 0, 0, 0)
  }

  function Start(s: EffectSlot, gain: u16): Control {
    Control(CONTROL_MAGIC, CONTROL_VERSION, CONTROL_RUMBLE, Gained(s.low, gain), Gained(s.high, gain),
            if s.duration != 0 then s.duration else DEFAULT_DURATION)
  }

  function ClampGain(v: s32): u16 { if v < 0 then 0 else if v > 0xffff then 0xffff else v }

  function Play(t: Effects, fd: nat, gain: u16, e: Event): Played {
    if e.kind != EV_FF then Nothing
    else if e.code == FF_GAIN then Gain(ClampGain(e.value))
    else
      var k := Find(t, fd, e.code);
      if k < 0 then Refused
      else if e.value <= 0 then Send(Stop())
      else Send(Start(t[k], gain))
  }

  /** The gain and the messages after a list of events none of which was refused. */
  function GainAfter(gain: u16, es: seq<Event>): u16 {
    if es == [] then gain
    else
      var e := es[|es| - 1];
      if e.kind == EV_FF && e.code == FF_GAIN then ClampGain(e.value) else GainAfter(gain, es[..|es| - 1])
  }

  function Messages(t: Effects, fd: nat, gain: u16, es: seq<Event>): seq<Control> {
    if es == [] then []
    else
      var front, e := es[..|es| - 1], es[|es| - 1];
      var p := Play(t, fd, GainAfter(gain, front), e);
      Messages(t, fd, gain, front) + (if p.Send? then [p.control] else [])
  }

  lemma {:induction false} PlayOne(t: Effects, fd: nat, gain: u16, es: seq<Event>, k: nat)
    requires k < |es|
    ensures var p := Play(t, fd, GainAfter(gain, es[..k]), es[k]);
      && GainAfter(gain, es[..k + 1]) == (if p.Gain? then p.gain else GainAfter(gain, es[..k]))
      && Messages(t, fd, gain, es[..k + 1]) == Messages(t, fd, gain, es[..k]) + (if p.Send? then [p.control] else [])
  {
    assert es[..k + 1][..k] == es[..k];
  }

  /** No message of a write is stronger than an effect the writer owns, and none lasts no time at all. */
  lemma {:induction false} MessagesBounded(t: Effects, fd: nat, gain: u16, es: seq<Event>)
    ensures forall m :: m in Messages(t, fd, gain, es) ==>
      m == Stop() ||
      (m.command == CONTROL_RUMBLE && m.duration > 0 &&
       exists k :: 0 <= k < 16 && Owner(t, k) == fd && m.low <= t[k].low && m.high <= t[k].high)
  {
    if es != [] {
      var front, e := es[..|es| - 1], es[|es| - 1];
      MessagesBounded(t, fd, gain, front);
      var g := GainAfter(gain, front);
      var p := Play(t, fd, g, e);
      if p.Send? && p.control != Stop() {
        var k := Find(t, fd, e.code);
        GainLaws(t[k].low, g, g);
        GainLaws(t[k].high, g, g);
        assert Owner(t, k) == fd;
      }
    }
  }

  /** At full gain an effect is played exactly as it was uploaded. */
  lemma FullGainPlaysUploaded(t: Effects, fd: nat, u: Upload, e: Event)
    requires Place(t, fd, u) >= 0 && e.kind == EV_FF && e.code == Place(t, fd, u) && e.value > 0
    ensures Play(Uploaded(t, fd, u), fd, FULL_GAIN, e) ==
      Send(Control(CONTROL_MAGIC, CONTROL_VERSION, CONTROL_RUMBLE, Strengths(u.effect).0, Strengths(u.effect).1,
                   if u.replayLength != 0 then u.replayLength else DEFAULT_DURATION))
  {
    GainLaws(Strengths(u.effect).0, FULL_GAIN, FULL_GAIN);
    GainLaws(Strengths(u.effect).1, FULL_GAIN, FULL_GAIN);
  }
}
