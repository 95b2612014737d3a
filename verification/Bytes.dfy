/** Little-endian fields and fixed-size records cut out of a byte stream. */
module Bytes {

  type byte = x: int | 0 <= x < 0x100
  type u16 = x: int | 0 <= x < 0x1_0000
  type u32 = x: int | 0 <= x < 0x1_0000_0000
  type u64 = x: int | 0 <= x < 0x1_0000_0000_0000_0000
  type s16 = x: int | -0x8000 <= x < 0x8000
  type s32 = x: int | -0x8000_0000 <= x < 0x8000_0000
  type s64 = x: int | -0x8000_0000_0000_0000 <= x < 0x8000_0000_0000_0000

  const U32_MAX: u32 := 0xffff_ffff

  // --------------------------------------------------------------- integers

  function Pow256(w: nat): (p: nat)
    ensures p > 0
  {
    if w == 0 then 1 else 0x100 * Pow256(w - 1)
  }

  /** The low w bytes of n, least significant first. */
  function Put(n: nat, w: nat): (s: seq<byte>)
    ensures |s| == w
    decreases n, w
  {
    if w == 0 then [] else [n % 0x100] + Put(n / 0x100, w - 1)
  }

  function Get(s: seq<byte>): (n: nat)
    ensures n < Pow256(|s|)
  {
    if s == [] then 0 else s[0] as int + 0x100 * Get(s[1..])
  }

  function Get16(s: seq<byte>): u16
    requires |s| == 2
  {
    assert Pow256(2) == 0x1_0000;
    Get(s)
  }

  function Get32(s: seq<byte>): u32
    requires |s| == 4
  {
    assert Pow256(4) == 0x1_0000_0000;
    Get(s)
  }

  function Get64(s: seq<byte>): u64
    requires |s| == 8
  {
    assert Pow256(8) == 0x1_0000_0000_0000_0000;
    Get(s)
  }

  /** Two's complement: a signed field is stored as its residue. */
  function Unsigned32(v: s32): u32 { if v < 0 then v + 0x1_0000_0000 else v }
  function Signed32(n: u32): s32 { if n < 0x8000_0000 then n else n - 0x1_0000_0000 }
  function Unsigned64(v: s64): u64 { if v < 0 then v + 0x1_0000_0000_0000_0000 else v }
  function Signed64(n: u64): s64 { if n < 0x8000_0000_0000_0000 then n else n - 0x1_0000_0000_0000_0000 }

  /** C's narrowing casts, written out. */
  function ToInt16(v: int): (r: s16)
    ensures (r - v) % 0x1_0000 == 0
    ensures -0x8000 <= v < 0x8000 ==> r == v
  {
    (v + 0x8000) % 0x1_0000 - 0x8000
  }

  function ToInt8(v: int): (r: int)
    ensures -0x80 <= r < 0x80 && (r - v) % 0x100 == 0
    ensures -0x80 <= v < 0x80 ==> r == v
  {
    (v + 0x80) % 0x100 - 0x80
  }

  /** Writing then reading an integer that fits gives it back. */
  lemma {:induction false} GetPut(n: nat, w: nat)
    requires n < Pow256(w)
    ensures Get(Put(n, w)) == n
    decreases w
  {
    if w > 0 {
      GetPut(n / 0x100, w - 1);
      assert Put(n, w)[1..] == Put(n / 0x100, w - 1);
    }
  }

  /** Reading then writing bytes gives them back. */
  lemma {:induction false} PutGet(s: seq<byte>)
    ensures Put(Get(s), |s|) == s
  {
    if s != [] {
      PutGet(s[1..]);
      assert Get(s) / 0x100 == Get(s[1..]) && Get(s) % 0x100 == s[0];
    }
  }

  lemma Widths()
    ensures Pow256(2) == 0x1_0000 && Pow256(4) == 0x1_0000_0000 && Pow256(8) == 0x1_0000_0000_0000_0000
  {}

  // ---------------------------------------------------------------- records

  /** The complete records of width w at the front of a stream. */
  function Records(s: seq<byte>, w: nat): (rs: seq<seq<byte>>)
    requires w > 0
    ensures forall r :: r in rs ==> |r| == w
    decreases |s|
  {
    if |s| < w then []
    else [s[..w]] + Records(s[w..], w)
  }

  /** What is left behind the last complete record. */
  function Rest(s: seq<byte>, w: nat): (r: seq<byte>)
    requires w > 0
    ensures |r| < w
    decreases |s|
  {
    if |s| < w then s else Rest(s[w..], w)
  }

  function Join(rs: seq<seq<byte>>): seq<byte> {
    if rs == [] then [] else rs[0] + Join(rs[1..])
  }

  lemma Regroup<T>(a: seq<T>, b: seq<T>, c: seq<T>)
    ensures a + (b + c) == (a + b) + c
  {}

  lemma AppendLast<T>(a: seq<T>, b: seq<T>)
    requires b != []
    ensures a + b == a + b[..|b| - 1] + [b[|b| - 1]]
  {}

  /** The i-th record, by its place in the stream. */
  lemma {:induction false} RecordAt(s: seq<byte>, w: nat, i: nat, at: nat)
    requires w > 0 && at == w * i && at + w <= |s|
    ensures i < |Records(s, w)| && Records(s, w)[i] == s[at..at + w]
    decreases i
  {
    if i > 0 {
      assert at - w == w * (i - 1);
      assert at >= w by { MultipleOf(w, i); }
      RecordAt(s[w..], w, i - 1, at - w);
    }
  }

  lemma MultipleOf(w: nat, i: nat)
    requires i > 0
    ensures w * i >= w
  {
    assert w * i == w * (i - 1) + w;
  }

  /** Nothing is lost and nothing is invented by cutting. */
  lemma {:induction false} CutsAreExact(s: seq<byte>, w: nat)
    requires w > 0
    ensures Join(Records(s, w)) + Rest(s, w) == s
    decreases |s|
  {
    if |s| >= w {
      CutsAreExact(s[w..], w);
      assert Records(s, w)[1..] == Records(s[w..], w);
      assert s == s[..w] + s[w..];
    }
  }

  /** Cutting may stop anywhere and go on with whatever was left over. */
  lemma {:induction false} CutsCompose(a: seq<byte>, b: seq<byte>, w: nat)
    requires w > 0
    ensures Records(a + b, w) == Records(a, w) + Records(Rest(a, w) + b, w)
    ensures Rest(a + b, w) == Rest(Rest(a, w) + b, w)
    decreases |a|
  {
    if |a| >= w {
      CutsCompose(a[w..], b, w);
      assert (a + b)[..w] == a[..w];
      assert (a + b)[w..] == a[w..] + b;
      Regroup([a[..w]], Records(a[w..], w), Records(Rest(a, w) + b, w));
    }
  }

  /** A stream made of whole records is cut into exactly those records. */
  lemma {:induction false} CutsOfJoin(rs: seq<seq<byte>>, w: nat)
    requires w > 0 && forall r :: r in rs ==> |r| == w
    ensures Records(Join(rs), w) == rs && Rest(Join(rs), w) == []
  {
    if rs != [] {
      CutsOfJoin(rs[1..], w);
      assert Join(rs)[..w] == rs[0] && Join(rs)[w..] == Join(rs[1..]);
    }
  }

  lemma {:induction false} JoinAppend(a: seq<seq<byte>>, b: seq<seq<byte>>)
    ensures Join(a + b) == Join(a) + Join(b)
  {
    if a == [] {
      assert a + b == b;
    } else {
      JoinAppend(a[1..], b);
      assert (a + b)[0] == a[0] && (a + b)[1..] == a[1..] + b;
      Regroup(a[0], Join(a[1..]), Join(b));
    }
  }

  lemma {:induction false} JoinPush(a: seq<seq<byte>>, b: seq<byte>)
    ensures Join(a + [b]) == Join(a) + b
  {
    JoinAppend(a, [b]);
    assert Join([b]) == b;
  }

  lemma {:induction false} JoinLast(chunks: seq<seq<byte>>)
    requires chunks != []
    ensures Join(chunks) == Join(chunks[..|chunks| - 1]) + chunks[|chunks| - 1]
  {
    var front, last := chunks[..|chunks| - 1], chunks[|chunks| - 1];
    JoinAppend(front, [last]);
    assert front + [last] == chunks && Join([last]) == last;
  }

  /** A stream that stops early still yields the first records, unchanged and in order. */
  lemma CutsOfPrefix(rs: seq<seq<byte>>, w: nat, n: nat)
    requires w > 0 && forall r :: r in rs ==> |r| == w
    requires n <= |Join(rs)|
    ensures Records(Join(rs)[..n], w) <= rs
    ensures n == |Join(rs)| ==> Records(Join(rs)[..n], w) == rs && Rest(Join(rs)[..n], w) == []
  {
    var s := Join(rs);
    assert s == s[..n] + s[n..];
    CutsOfJoin(rs, w);
    CutsCompose(s[..n], s[n..], w);
  }

  /** Records cut out of a stream that arrives in chunks, with what is left over kept in between. */
  function Cut(left: seq<byte>, chunks: seq<seq<byte>>, w: nat): (seq<seq<byte>>, seq<byte>)
    requires w > 0
    decreases |chunks|
  {
    if chunks == [] then ([], left)
    else
      var s := left + chunks[0];
      var (rs, rest) := Cut(Rest(s, w), chunks[1..], w);
      (Records(s, w) + rs, rest)
  }

  /** It does not matter where the stream was broken. */
  lemma {:induction false} ChunkingIrrelevant(left: seq<byte>, chunks: seq<seq<byte>>, w: nat)
    requires |left| < w
    ensures Cut(left, chunks, w) == (Records(left + Join(chunks), w), Rest(left + Join(chunks), w))
    decreases |chunks|
  {
    if chunks == [] {
      assert left + [] == left;
    } else {
      var s := left + chunks[0];
      Regroup(left, chunks[0], Join(chunks[1..]));
      CutsCompose(s, Join(chunks[1..]), w);
      ChunkingIrrelevant(Rest(s, w), chunks[1..], w);
    }
  }
}
