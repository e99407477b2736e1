/** MD5 as sections 3.1 to 3.4 of RFC 1321 define it: padding, then sixty-four table-driven operations for
    every block of sixteen words. */
module Md5Spec {
  import opened Bytes

  type Octet = byte

  type Word = uint32

  datatype Digest = Digest(a: Word, b: Word, c: Word, d: Word)

  const INITIAL := Digest(0x67452301, 0xefcdab89, 0x98badcfe, 0x10325476)

  // ---- Sections 3.1 and 3.2: padding and length ----

  function Octets(v: nat, n: nat): (s: seq<Octet>)
    ensures |s| == n
  {
    if n == 0 then [] else [v % 256] + Octets(v / 256, n - 1)
  }

  function Zeros(n: nat): (s: seq<Octet>)
    ensures |s| == n && forall i :: 0 <= i < n ==> s[i] == 0
  {
    seq(n, i => 0)
  }

  /** A one bit, zero bits up to 448 modulo 512, and the bit length in 64 bits, low octet first. */
  function Pad(m: seq<Octet>): seq<Octet> {
    m + [0x80] + Zeros((119 - |m| % 64) % 64) + Octets(8 * |m|, 8)
  }

  // ---- Section 3.4: the operations ----

  function BitsF(x: bv32, y: bv32, z: bv32): bv32 { (x & y) | (!x & z) }

  function BitsG(x: bv32, y: bv32, z: bv32): bv32 { (x & z) | (y & !z) }

  function BitsH(x: bv32, y: bv32, z: bv32): bv32 { x ^ y ^ z }

  function BitsI(x: bv32, y: bv32, z: bv32): bv32 { y ^ (x | !z) }

  function F(x: Word, y: Word, z: Word): Word { BitsF(x as bv32, y as bv32, z as bv32) as Word }

  function G(x: Word, y: Word, z: Word): Word { BitsG(x as bv32, y as bv32, z as bv32) as Word }

  function H(x: Word, y: Word, z: Word): Word { BitsH(x as bv32, y as bv32, z as bv32) as Word }

  function I(x: Word, y: Word, z: Word): Word { BitsI(x as bv32, y as bv32, z as bv32) as Word }

  /** The function of operation i. */
  function Aux(i: nat, x: Word, y: Word, z: Word): Word {
    if i < 16 then F(x, y, z) else if i < 32 then G(x, y, z) else if i < 48 then H(x, y, z) else I(x, y, z)
  }

  /** Which word of the block operation i takes. */
  function K(i: nat): (k: nat)
    ensures k < 16
  {
    if i < 16 then i else if i < 32 then (5 * i + 1) % 16 else if i < 48 then (3 * i + 5) % 16 else 7 * i % 16
  }

  function Cycle<A>(i: nat, s0: A, s1: A, s2: A, s3: A): A {
    match i % 4
    case 0 => s0
    case 1 => s1
    case 2 => s2
    case _ => s3
  }

  /** How far operation i rotates. */
  function S(i: nat): (s: nat)
    ensures 0 < s < 32
  {
    if i < 16 then Cycle(i, 7, 12, 17, 22)
    else if i < 32 then Cycle(i, 5, 9, 14, 20)
    else if i < 48 then Cycle(i, 4, 11, 16, 23)
    else Cycle(i, 6, 10, 15, 21)
  }

  /** The integer part of 4294967296 times abs(sin(i + 1)). */
  function T(i: nat): Word {
    match i
    case 0 => 0xd76aa478 case 1 => 0xe8c7b756 case 2 => 0x242070db case 3 => 0xc1bdceee
    case 4 => 0xf57c0faf case 5 => 0x4787c62a case 6 => 0xa8304613 case 7 => 0xfd469501
    case 8 => 0x698098d8 case 9 => 0x8b44f7af case 10 => 0xffff5bb1 case 11 => 0x895cd7be
    case 12 => 0x6b901122 case 13 => 0xfd987193 case 14 => 0xa679438e case 15 => 0x49b40821
    case 16 => 0xf61e2562 case 17 => 0xc040b340 case 18 => 0x265e5a51 case 19 => 0xe9b6c7aa
    case 20 => 0xd62f105d case 21 => 0x02441453 case 22 => 0xd8a1e681 case 23 => 0xe7d3fbc8
    case 24 => 0x21e1cde6 case 25 => 0xc33707d6 case 26 => 0xf4d50d87 case 27 => 0x455a14ed
    case 28 => 0xa9e3e905 case 29 => 0xfcefa3f8 case 30 => 0x676f02d9 case 31 => 0x8d2a4c8a
    case 32 => 0xfffa3942 case 33 => 0x8771f681 case 34 => 0x6d9d6122 case 35 => 0xfde5380c
    case 36 => 0xa4beea44 case 37 => 0x4bdecfa9 case 38 => 0xf6bb4b60 case 39 => 0xbebfbc70
    case 40 => 0x289b7ec6 case 41 => 0xeaa127fa case 42 => 0xd4ef3085 case 43 => 0x04881d05
    case 44 => 0xd9d4d039 case 45 => 0xe6db99e5 case 46 => 0x1fa27cf8 case 47 => 0xc4ac5665
    case 48 => 0xf4292244 case 49 => 0x432aff97 case 50 => 0xab9423a7 case 51 => 0xfc93a039
    case 52 => 0x655b59c3 case 53 => 0x8f0ccc92 case 54 => 0xffeff47d case 55 => 0x85845dd1
    case 56 => 0x6fa87e4f case 57 => 0xfe2ce6e0 case 58 => 0xa3014314 case 59 => 0x4e0811a1
    case 60 => 0xf7537e82 case 61 => 0xbd3af235 case 62 => 0x2ad7d2bb case _ => 0xeb86d391
  }

  function Rotated(x: Word, s: nat): Word
    requires s < 32
  {
    (x as bv32).RotateLeft(s) as Word
  }

  function Add(x: Word, y: Word): Word {
    (x + y) % 0x1_0000_0000
  }

  /** a = b + ((a + F(b, c, d) + X[k] + T[i]) <<< s) */
  function Mix(f: Word, a: Word, b: Word, x: Word, s: nat, t: Word): Word
    requires s < 32
  {
    Add(b, Rotated(Add(Add(Add(a, f), x), t), s))
  }

  function Op(i: nat, a: Word, b: Word, c: Word, d: Word, x: seq<Word>): Word
    requires |x| == 16
  {
    Mix(Aux(i, b, c, d), a, b, x[K(i)], S(i), T(i))
  }

  /** The registers after n operations, their roles rotating after each. */
  function Rounds(s: Digest, x: seq<Word>, n: nat): Digest
    requires |x| == 16
  {
    if n == 0 then s
    else
      var r := Rounds(s, x, n - 1);
      Digest(r.d, Op(n - 1, r.a, r.b, r.c, r.d, x), r.b, r.c)
  }

  function Plus(s: Digest, r: Digest): Digest {
    Digest(Add(s.a, r.a), Add(s.b, r.b), Add(s.c, r.c), Add(s.d, r.d))
  }

  /** Word k of what starts at p, low octet first. */
  function WordAt(bytes: seq<Octet>, p: nat): Word
    requires p + 4 <= |bytes|
  {
    bytes[p] as int + 0x100 * bytes[p + 1] as int + 0x1_0000 * bytes[p + 2] as int + 0x100_0000 * bytes[p + 3] as int
  }

  function Block(bytes: seq<Octet>, p: nat): (x: seq<Word>)
    requires p + 64 <= |bytes|
    ensures |x| == 16
  {
    seq(16, k requires 0 <= k < 16 => WordAt(bytes, p + 4 * k))
  }

  /** The registers after the first n blocks. */
  function Blocks(bytes: seq<Octet>, n: nat): Digest
    requires 64 * n <= |bytes|
  {
    if n == 0 then INITIAL
    else
      var s := Blocks(bytes, n - 1);
      Plus(s, Rounds(s, Block(bytes, 64 * (n - 1)), 64))
  }

  function Hash(m: seq<Octet>): Digest {
    Blocks(Pad(m), |Pad(m)| / 64)
  }

  // ---- The padding ----

  /** The padded length is the least multiple of 64 that is at least n + 9. */
  lemma PadLength(m: seq<Octet>)
    ensures |Pad(m)| % 64 == 0 && |m| + 9 <= |Pad(m)| < |m| + 9 + 64
  {
    var q, r := |m| / 64, |m| % 64;
    assert (119 - r) % 64 == if r < 56 then 55 - r else 119 - r;
  }

  function Value(s: seq<Octet>): nat {
    if s == [] then 0 else s[0] + 256 * Value(s[1..])
  }

  lemma {:induction false} OctetsValue(v: nat, n: nat)
    ensures v < Power(n) ==> Value(Octets(v, n)) == v
  {
    if n > 0 {
      OctetsValue(v / 256, n - 1);
      assert Octets(v, n)[1..] == Octets(v / 256, n - 1);
    }
  }

  function Power(n: nat): nat {
    if n == 0 then 1 else 256 * Power(n - 1)
  }

  lemma {:induction false} ValueOctets(s: seq<Octet>)
    ensures Octets(Value(s), |s|) == s
  {
    if s != [] {
      ValueOctets(s[1..]);
      LowestOctet(s[0], Value(s[1..]));
      assert Octets(Value(s), |s|) == [Value(s) % 256] + Octets(Value(s) / 256, |s| - 1);
    }
  }

  lemma LowestOctet(low: Octet, rest: nat)
    ensures (low + 256 * rest) % 256 == low && (low + 256 * rest) / 256 == rest
  {
  }

  /** A word read from four octets is their value, the first octet the lowest; writing it gives them back, and
      reading what was written gives the word. */
  lemma WordAtReads(bytes: seq<Octet>, p: nat, w: Word)
    requires p + 4 <= |bytes|
    ensures WordAt(bytes, p) == Value(bytes[p..p + 4])
    ensures Octets(WordAt(bytes, p), 4) == bytes[p..p + 4]
    ensures WordAt(Octets(w, 4), 0) == w
  {
    FourValue(bytes[p..p + 4]);
    ValueOctets(bytes[p..p + 4]);
    FourValue(Octets(w, 4));
    OctetsValue(w, 4);
    assert Power(4) == 0x1_0000_0000;
    assert Octets(w, 4)[0..4] == Octets(w, 4);
  }

  lemma FourValue(s: seq<Octet>)
    requires |s| == 4
    ensures Value(s) == s[0] as int + 0x100 * s[1] as int + 0x1_0000 * s[2] as int + 0x100_0000 * s[3] as int
  {
    assert s[1..][1..] == s[2..] && s[2..][1..] == s[3..] && s[3..][1..] == [];
    assert Value(s[3..]) == s[3] && Value(s[2..]) == s[2] + 256 * Value(s[3..]);
    assert Value(s[1..]) == s[1] + 256 * Value(s[2..]);
  }

  /** Word k of a block is octets 4 k to 4 k + 3 of it. */
  lemma BlockWords(bytes: seq<Octet>, p: nat, k: nat)
    requires p + 64 <= |bytes| && k < 16
    ensures Octets(Block(bytes, p)[k], 4) == bytes[p + 4 * k..p + 4 * k + 4]
  {
    hide Octets, WordAt;
    WordAtReads(bytes, p + 4 * k, 0);
  }

  /** In each bit position F is "if x then y else z", here where x has a one, then where it has a zero. */
  lemma FTakesY(x: bv32, y: bv32, z: bv32)
    ensures BitsF(x, y, z) & x == y & x
  {
  }

  lemma FTakesZ(x: bv32, y: bv32, z: bv32)
    ensures BitsF(x, y, z) & !x == z & !x
  {
  }

  /** G is "if z then x else y". */
  lemma GIsF(x: bv32, y: bv32, z: bv32)
    ensures BitsG(x, y, z) == BitsF(z, x, y)
  {
  }

  /** H is the parity: adding y and z bitwise once more leaves x. */
  lemma HIsParity(x: bv32, y: bv32, z: bv32)
    ensures BitsH(x, y, z) ^ y ^ z == x
  {
  }

  /** I differs from y everywhere but where x has a zero and z a one. */
  lemma IFlips(x: bv32, y: bv32, z: bv32)
    ensures !(BitsI(x, y, z) ^ y) == !x & z
  {
  }

  /** Addition of words is the sum, or the sum less 2^32. */
  lemma AddIsSum(x: Word, y: Word)
    ensures Add(x, y) == x + y || Add(x, y) == x + y - 0x1_0000_0000
  {
  }

  /** The four registers as section 3.3 of RFC 1321 lists them, low octet first. */
  lemma InitialOctets()
    ensures Octets(INITIAL.a, 4) == [0x01, 0x23, 0x45, 0x67] && Octets(INITIAL.b, 4) == [0x89, 0xab, 0xcd, 0xef]
    ensures Octets(INITIAL.c, 4) == [0xfe, 0xdc, 0xba, 0x98] && Octets(INITIAL.d, 4) == [0x76, 0x54, 0x32, 0x10]
  {
    OctetsOf(0x67452301, [0x01, 0x23, 0x45, 0x67]);
    OctetsOf(0xefcdab89, [0x89, 0xab, 0xcd, 0xef]);
    OctetsOf(0x98badcfe, [0xfe, 0xdc, 0xba, 0x98]);
    OctetsOf(0x10325476, [0x76, 0x54, 0x32, 0x10]);
  }

  lemma OctetsOf(w: Word, s: seq<Octet>)
    requires |s| == 4 && w == s[0] as int + 0x100 * s[1] as int + 0x1_0000 * s[2] as int + 0x100_0000 * s[3] as int
    ensures Octets(w, 4) == s
  {
    FourValue(s);
    ValueOctets(s);
  }

  /** Two messages of fewer than 2^61 octets that pad to the same are the same. */
  lemma PadInjective(m: seq<Octet>, m': seq<Octet>)
    requires |m| < 0x2000_0000_0000_0000 && |m'| < 0x2000_0000_0000_0000
    requires Pad(m) == Pad(m')
    ensures m == m'
  {
    assert Power(8) == 0x1_0000_0000_0000_0000;
    OctetsValue(8 * |m|, 8);
    OctetsValue(8 * |m'|, 8);
    var end := |Pad(m)| - 8;
    assert Pad(m)[end..] == Octets(8 * |m|, 8);
    assert Pad(m')[end..] == Octets(8 * |m'|, 8);
    assert Pad(m)[..|m|] == m;
    assert Pad(m')[..|m'|] == m';
  }

  // ---- Four operations at a time ----

  /** After four operations every register has been replaced once and has its own role again. */
  lemma FourRounds(s: Digest, x: seq<Word>, n: nat)
    requires |x| == 16
    ensures
      var r := Rounds(s, x, n);
      var a := Op(n, r.a, r.b, r.c, r.d, x);
      var d := Op(n + 1, r.d, a, r.b, r.c, x);
      var c := Op(n + 2, r.c, d, a, r.b, x);
      var b := Op(n + 3, r.b, c, d, a, x);
      Rounds(s, x, n + 4) == Digest(a, b, c, d)
  {
    hide Op;
    var r1 := Rounds(s, x, n + 1);
    var r2 := Rounds(s, x, n + 2);
    var r3 := Rounds(s, x, n + 3);
  }
}
