/**
 * Byte views of the machine words the cipher works on.
 *
 * The implementation keeps the 16-byte state and the key schedule in 64-bit
 * lanes and reads each lane through a union, as eight bytes `b[8]`, as two
 * 32-bit words `w[2]` or as the whole lane `d`.  Here the bytes of a lane are
 * listed in memory order on a little-endian host: byte k of a lane holds bits
 * 8k..8k+7.  Every operation of the cipher treats all bytes of a lane alike,
 * or swaps them symmetrically inside a 4-byte column, so what is proved here
 * does not depend on that choice.
 */
module Bytes {
  import opened Field

  /** The four bytes of a 32-bit word, in memory order. */
  function Unpack32(w: bv32): (b: seq<bv8>)
    ensures |b| == 4
  {
    [(w & 0xFF) as bv8, ((w >> 8) & 0xFF) as bv8, ((w >> 16) & 0xFF) as bv8, (w >> 24) as bv8]
  }

  /** The 32-bit word whose bytes, in memory order, are `b`. */
  function Pack32(b: seq<bv8>): bv32
    requires |b| == 4
  {
    (b[0] as bv32) | ((b[1] as bv32) << 8) | ((b[2] as bv32) << 16) | ((b[3] as bv32) << 24)
  }

  /** Byte 0 of a lane: bits 0..7. */
  function Byte0(d: bv64): bv8 { (d & 0xFF) as bv8 }
  /** Byte 1 of a lane: bits 8..15. */
  function Byte1(d: bv64): bv8 { ((d >> 8) & 0xFF) as bv8 }
  /** Byte 2 of a lane: bits 16..23. */
  function Byte2(d: bv64): bv8 { ((d >> 16) & 0xFF) as bv8 }
  /** Byte 3 of a lane: bits 24..31. */
  function Byte3(d: bv64): bv8 { ((d >> 24) & 0xFF) as bv8 }
  /** Byte 4 of a lane: bits 32..39. */
  function Byte4(d: bv64): bv8 { ((d >> 32) & 0xFF) as bv8 }
  /** Byte 5 of a lane: bits 40..47. */
  function Byte5(d: bv64): bv8 { ((d >> 40) & 0xFF) as bv8 }
  /** Byte 6 of a lane: bits 48..55. */
  function Byte6(d: bv64): bv8 { ((d >> 48) & 0xFF) as bv8 }
  /** Byte 7 of a lane: bits 56..63. */
  function Byte7(d: bv64): bv8 { (d >> 56) as bv8 }

  /** The eight bytes of a 64-bit lane, in memory order (the union's `b[8]`). */
  function Unpack64(d: bv64): (b: seq<bv8>)
    ensures |b| == 8
  {
    [Byte0(d), Byte1(d), Byte2(d), Byte3(d), Byte4(d), Byte5(d), Byte6(d), Byte7(d)]
  }

  /** The exclusive or of two lanes, the byte-wise sum of the two lanes. */
  function XorLane(x: bv64, y: bv64): (r: bv64)
    ensures Byte0(r) == Add(Byte0(x), Byte0(y))
    ensures Byte1(r) == Add(Byte1(x), Byte1(y))
    ensures Byte2(r) == Add(Byte2(x), Byte2(y))
    ensures Byte3(r) == Add(Byte3(x), Byte3(y))
    ensures Byte4(r) == Add(Byte4(x), Byte4(y))
    ensures Byte5(r) == Add(Byte5(x), Byte5(y))
    ensures Byte6(r) == Add(Byte6(x), Byte6(y))
    ensures Byte7(r) == Add(Byte7(x), Byte7(y))
  {
    x ^ y
  }

  /** The 64-bit lane whose bytes, in memory order, are `b`. */
  function Pack64(b: seq<bv8>): bv64
    requires |b| == 8
  {
    (b[0] as bv64) | ((b[1] as bv64) << 8) | ((b[2] as bv64) << 16) | ((b[3] as bv64) << 24) |
    ((b[4] as bv64) << 32) | ((b[5] as bv64) << 40) | ((b[6] as bv64) << 48) | ((b[7] as bv64) << 56)
  }

  /** The union's `w[0]`: the word made of bytes 0..3 of a lane. */
  function Lo(d: bv64): bv32
  {
    (d & 0xFFFF_FFFF) as bv32
  }

  /** The union's `w[1]`: the word made of bytes 4..7 of a lane. */
  function Hi(d: bv64): bv32
  {
    (d >> 32) as bv32
  }

  /** The lane whose `w[0]` is `lo` and whose `w[1]` is `hi`. */
  function Join(lo: bv32, hi: bv32): bv64
  {
    (lo as bv64) | ((hi as bv64) << 32)
  }

  lemma Unpack32Pack32(b: seq<bv8>)
    requires |b| == 4
    ensures Unpack32(Pack32(b)) == b
  {
  }

  lemma Pack32Unpack32(w: bv32)
    ensures Pack32(Unpack32(w)) == w
  {
  }

  lemma Unpack64Pack64(b: seq<bv8>)
    requires |b| == 8
    ensures Unpack64(Pack64(b)) == b
  {
  }

  lemma Pack64Unpack64(d: bv64)
    ensures Pack64(Unpack64(d)) == d
  {
  }

  /** Two lanes with the same bytes are the same lane. */
  lemma Unpack64Injective(d: bv64, e: bv64)
    requires Unpack64(d) == Unpack64(e)
    ensures d == e
  {
    Pack64Unpack64(d);
    Pack64Unpack64(e);
  }

  /** Two words with the same bytes are the same word. */
  lemma Unpack32Injective(v: bv32, w: bv32)
    requires Unpack32(v) == Unpack32(w)
    ensures v == w
  {
    Pack32Unpack32(v);
    Pack32Unpack32(w);
  }

  lemma LoHiJoin(lo: bv32, hi: bv32)
    ensures Lo(Join(lo, hi)) == lo && Hi(Join(lo, hi)) == hi
  {
  }

  lemma JoinLoHi(d: bv64)
    ensures Join(Lo(d), Hi(d)) == d
  {
  }

  lemma Pack64Split(b: seq<bv8>)
    requires |b| == 8
    ensures Pack64(b) == Join(Pack32(b[..4]), Pack32(b[4..]))
  {
  }

  /** The bytes of a lane are the bytes of its `w[0]` followed by those of its `w[1]`. */
  lemma Unpack64Split(d: bv64)
    ensures Unpack64(d) == Unpack32(Lo(d)) + Unpack32(Hi(d))
  {
    var b := Unpack64(d);
    Pack64Unpack64(d);
    Pack64Split(b);
    LoHiJoin(Pack32(b[..4]), Pack32(b[4..]));
    Unpack32Pack32(b[..4]);
    Unpack32Pack32(b[4..]);
    assert b == b[..4] + b[4..];
  }

  /** The union of a lane: its `w[0]` and `w[1]` read back as the bytes that were joined. */
  lemma Unpack64Join(lo: bv32, hi: bv32)
    ensures Unpack64(Join(lo, hi)) == Unpack32(lo) + Unpack32(hi)
  {
    Unpack64Split(Join(lo, hi));
    LoHiJoin(lo, hi);
  }

  /** Byte-wise exclusive or (field addition) of two sequences of the same length. */
  function XorBytes(a: seq<bv8>, b: seq<bv8>): (r: seq<bv8>)
    requires |a| == |b|
    ensures |r| == |a|
  {
    seq(|a|, i requires 0 <= i < |a| => Add(a[i], b[i]))
  }

  /** Applying the same key twice gives back the input: the partner of every key addition. */
  lemma XorBytesCancel(a: seq<bv8>, k: seq<bv8>)
    requires |a| == |k|
    ensures XorBytes(XorBytes(a, k), k) == a
  {
    var r := XorBytes(XorBytes(a, k), k);
    forall i | 0 <= i < |a|
      ensures r[i] == a[i]
    {
    }
  }

  lemma XorBytesAppend(a: seq<bv8>, b: seq<bv8>, c: seq<bv8>, d: seq<bv8>)
    requires |a| == |c| && |b| == |d|
    ensures XorBytes(a + b, c + d) == XorBytes(a, c) + XorBytes(b, d)
  {
  }

  /** `f` applied to every byte of `a`. */
  function MapBytes(f: bv8 -> bv8, a: seq<bv8>): (r: seq<bv8>)
    ensures |r| == |a|
  {
    seq(|a|, i requires 0 <= i < |a| => f(a[i]))
  }

  lemma MapBytesAppend(f: bv8 -> bv8, a: seq<bv8>, b: seq<bv8>)
    ensures MapBytes(f, a + b) == MapBytes(f, a) + MapBytes(f, b)
  {
  }

  /** Mapping `g` after `f`, where `g` undoes `f` on every byte, gives back the input. */
  lemma MapBytesCancel(f: bv8 -> bv8, g: bv8 -> bv8, a: seq<bv8>)
    requires forall b :: g(f(b)) == b
    ensures MapBytes(g, MapBytes(f, a)) == a
  {
    var r := MapBytes(g, MapBytes(f, a));
    forall i | 0 <= i < |a|
      ensures r[i] == a[i]
    {
      assert r[i] == g(f(a[i]));
    }
  }

  // Lane-wise facts.  Each one is stated for a single, literal byte position so
  // that the solver decides it on bits; the lemmas after them put the positions
  // together on sequences only.

  lemma Xor32Lane0(x: bv32, y: bv32) ensures Unpack32(x ^ y)[0] == Add(Unpack32(x)[0], Unpack32(y)[0]) {}
  lemma Xor32Lane1(x: bv32, y: bv32) ensures Unpack32(x ^ y)[1] == Add(Unpack32(x)[1], Unpack32(y)[1]) {}
  lemma Xor32Lane2(x: bv32, y: bv32) ensures Unpack32(x ^ y)[2] == Add(Unpack32(x)[2], Unpack32(y)[2]) {}
  lemma Xor32Lane3(x: bv32, y: bv32) ensures Unpack32(x ^ y)[3] == Add(Unpack32(x)[3], Unpack32(y)[3]) {}

  lemma XorBytes8(p: seq<bv8>, a: seq<bv8>, b: seq<bv8>)
    requires |p| == 8 && |a| == 8 && |b| == 8
    requires p[0] == Add(a[0], b[0]) && p[1] == Add(a[1], b[1]) && p[2] == Add(a[2], b[2]) && p[3] == Add(a[3], b[3])
    requires p[4] == Add(a[4], b[4]) && p[5] == Add(a[5], b[5]) && p[6] == Add(a[6], b[6]) && p[7] == Add(a[7], b[7])
    ensures p == XorBytes(a, b)
  {
    var r := XorBytes(a, b);
    assert r[0] == p[0] && r[1] == p[1] && r[2] == p[2] && r[3] == p[3];
    assert r[4] == p[4] && r[5] == p[5] && r[6] == p[6] && r[7] == p[7];
  }

  lemma XorBytes4(p: seq<bv8>, a: seq<bv8>, b: seq<bv8>)
    requires |p| == 4 && |a| == 4 && |b| == 4
    requires p[0] == Add(a[0], b[0]) && p[1] == Add(a[1], b[1]) && p[2] == Add(a[2], b[2]) && p[3] == Add(a[3], b[3])
    ensures p == XorBytes(a, b)
  {
    var r := XorBytes(a, b);
    assert r[0] == p[0] && r[1] == p[1] && r[2] == p[2] && r[3] == p[3];
  }

  lemma MapBytes8(f: bv8 -> bv8, p: seq<bv8>, a: seq<bv8>)
    requires |p| == 8 && |a| == 8
    requires p[0] == f(a[0]) && p[1] == f(a[1]) && p[2] == f(a[2]) && p[3] == f(a[3])
    requires p[4] == f(a[4]) && p[5] == f(a[5]) && p[6] == f(a[6]) && p[7] == f(a[7])
    ensures p == MapBytes(f, a)
  {
  }

  lemma MapBytes4(f: bv8 -> bv8, p: seq<bv8>, a: seq<bv8>)
    requires |p| == 4 && |a| == 4
    requires p[0] == f(a[0]) && p[1] == f(a[1]) && p[2] == f(a[2]) && p[3] == f(a[3])
    ensures p == MapBytes(f, a)
  {
  }

  /** Exclusive or of two lanes is byte-wise exclusive or of their bytes. */
  lemma UnpackXor64(x: bv64, y: bv64)
    ensures Unpack64(XorLane(x, y)) == XorBytes(Unpack64(x), Unpack64(y))
  {
    hide XorLane, Add, Byte0, Byte1, Byte2, Byte3, Byte4, Byte5, Byte6, Byte7;
    XorBytes8(Unpack64(XorLane(x, y)), Unpack64(x), Unpack64(y));
  }

  /** Exclusive or of two words is byte-wise exclusive or of their bytes. */
  lemma UnpackXor32(x: bv32, y: bv32)
    ensures Unpack32(x ^ y) == XorBytes(Unpack32(x), Unpack32(y))
  {
    Xor32Lane0(x, y); Xor32Lane1(x, y); Xor32Lane2(x, y); Xor32Lane3(x, y);
    XorBytes4(Unpack32(x ^ y), Unpack32(x), Unpack32(y));
  }

  /** The exclusive or of two words, the byte-wise sum of their bytes. */
  function XorWord(x: bv32, y: bv32): (r: bv32)
    ensures Unpack32(r) == XorBytes(Unpack32(x), Unpack32(y))
  {
    UnpackXor32(x, y);
    x ^ y
  }

  /** The 16 state bytes held in two lanes, as a `uint64_t state[2]` reads in memory. */
  function StateBytes(s0: bv64, s1: bv64): (b: seq<bv8>)
    ensures |b| == 16
  {
    Unpack64(s0) + Unpack64(s1)
  }

  /** The 32-bit words of a sequence of lanes, in memory order: `w[0]` then `w[1]` of each lane. */
  function LaneWords(ws: seq<bv64>): (r: seq<seq<bv8>>)
    ensures |r| == 2 * |ws|
  {
    seq(2 * |ws|, j requires 0 <= j < 2 * |ws| =>
      if j % 2 == 0 then Unpack32(Lo(ws[j / 2])) else Unpack32(Hi(ws[j / 2])))
  }

  /** Word 2j is the low word of lane j and word 2j + 1 its high word. */
  lemma LaneWordsAt(ws: seq<bv64>, j: nat)
    requires j < |ws|
    ensures LaneWords(ws)[2 * j] == Unpack32(Lo(ws[j]))
    ensures LaneWords(ws)[2 * j + 1] == Unpack32(Hi(ws[j]))
  {
  }

  /** The four words of lanes 2r and 2r+1 (a round key) read as the 16 state bytes of those lanes. */
  lemma LaneWordsRoundKey(ws: seq<bv64>, r: nat)
    requires 2 * r + 1 < |ws|
    ensures var w := LaneWords(ws);
      w[4 * r] + w[4 * r + 1] + w[4 * r + 2] + w[4 * r + 3] == StateBytes(ws[2 * r], ws[2 * r + 1])
  {
    hide Unpack32, Unpack64, Lo, Hi;
    var w := LaneWords(ws);
    var a, b := ws[2 * r], ws[2 * r + 1];
    assert w[4 * r] == Unpack32(Lo(a));
    assert w[4 * r + 1] == Unpack32(Hi(a));
    assert w[4 * r + 2] == Unpack32(Lo(b));
    assert w[4 * r + 3] == Unpack32(Hi(b));
    Unpack64Split(a);
    Unpack64Split(b);
    assert w[4 * r] + w[4 * r + 1] + w[4 * r + 2] + w[4 * r + 3]
        == (Unpack32(Lo(a)) + Unpack32(Hi(a))) + (Unpack32(Lo(b)) + Unpack32(Hi(b)));
  }
}
