/** The sample server's md5: padding in place in a buffer, then a loop over its blocks that runs the
    sixty-four operations one after the other on four variables. Proved equal to the definition. */
module Md5 {
  import opened Bytes
  import opened Md5Spec

  const MAX_SIZE := 0x1_0000_0000 - 73

  const S11 := 7
  const S12 := 12
  const S13 := 17
  const S14 := 22
  const S21 := 5
  const S22 := 9
  const S23 := 14
  const S24 := 20
  const S31 := 4
  const S32 := 11
  const S33 := 16
  const S34 := 23
  const S41 := 6
  const S42 := 10
  const S43 := 15
  const S44 := 21

  function RotateLeft(x: Word, n: nat): (r: Word)
    requires 0 < n < 32
    ensures r == Rotated(x, n)
  {
    Shifted(x as bv32, n) as Word
  }

  function Shifted(x: bv32, n: nat): (r: bv32)
    requires 0 < n < 32
    ensures r == x.RotateLeft(n)
  {
    (x << n) | (x >> (32 - n))
  }

  /** The macros add, rotate and add in place; that is the definition's operation. */
  lemma MacroIsMix(f: Word, a: Word, b: Word, x: Word, s: nat, ac: Word)
    requires 0 < s < 32
    ensures Add(RotateLeft(Add(a, Add(Add(f, x), ac)), s), b) == Mix(f, a, b, x, s, ac)
  {
    hide RotateLeft, Rotated;
    SumsAgree(f, a, x, ac);
    assert Add(b, Rotated(Add(Add(Add(a, f), x), ac), s)) == Add(Rotated(Add(Add(Add(a, f), x), ac), s), b);
  }

  lemma SumsAgree(f: Word, a: Word, x: Word, ac: Word)
    ensures Add(a, Add(Add(f, x), ac)) == Add(Add(Add(a, f), x), ac)
  {
    hide Add;
    Associates(a, Add(f, x), ac);
    Associates(a, f, x);
  }

  lemma Associates(x: Word, y: Word, z: Word)
    ensures Add(x, Add(y, z)) == Add(Add(x, y), z)
  {
  }

  function FF(a: Word, b: Word, c: Word, d: Word, x: Word, s: nat, ac: Word): (r: Word)
    requires 0 < s < 32
    ensures r == Mix(F(b, c, d), a, b, x, s, ac)
  {
    hide *;
    MacroIsMix(F(b, c, d), a, b, x, s, ac);
    Add(RotateLeft(Add(a, Add(Add(F(b, c, d), x), ac)), s), b)
  }

  function GG(a: Word, b: Word, c: Word, d: Word, x: Word, s: nat, ac: Word): (r: Word)
    requires 0 < s < 32
    ensures r == Mix(G(b, c, d), a, b, x, s, ac)
  {
    hide *;
    MacroIsMix(G(b, c, d), a, b, x, s, ac);
    Add(RotateLeft(Add(a, Add(Add(G(b, c, d), x), ac)), s), b)
  }

  function HH(a: Word, b: Word, c: Word, d: Word, x: Word, s: nat, ac: Word): (r: Word)
    requires 0 < s < 32
    ensures r == Mix(H(b, c, d), a, b, x, s, ac)
  {
    hide *;
    MacroIsMix(H(b, c, d), a, b, x, s, ac);
    Add(RotateLeft(Add(a, Add(Add(H(b, c, d), x), ac)), s), b)
  }

  function II(a: Word, b: Word, c: Word, d: Word, x: Word, s: nat, ac: Word): (r: Word)
    requires 0 < s < 32
    ensures r == Mix(I(b, c, d), a, b, x, s, ac)
  {
    hide *;
    MacroIsMix(I(b, c, d), a, b, x, s, ac);
    Add(RotateLeft(Add(a, Add(Add(I(b, c, d), x), ac)), s), b)
  }

  method Round1(ghost s: Digest, val: Digest, x: seq<Word>) returns (r: Digest)
    requires |x| == 16 && val == Rounds(s, x, 0)
    ensures r == Rounds(s, x, 16)
  {
    hide Mix, F, G, H, I, Add, Rounds, RotateLeft, FF, GG, HH, II;
    var Digest(a, b, c, d) := val;
    FourRounds(s, x, 0);
    a := FF(a, b, c, d, x[0], S11, 0xd76aa478);
    d := FF(d, a, b, c, x[1], S12, 0xe8c7b756);
    c := FF(c, d, a, b, x[2], S13, 0x242070db);
    b := FF(b, c, d, a, x[3], S14, 0xc1bdceee);
    FourRounds(s, x, 4);
    a := FF(a, b, c, d, x[4], S11, 0xf57c0faf);
    d := FF(d, a, b, c, x[5], S12, 0x4787c62a);
    c := FF(c, d, a, b, x[6], S13, 0xa8304613);
    b := FF(b, c, d, a, x[7], S14, 0xfd469501);
    FourRounds(s, x, 8);
    a := FF(a, b, c, d, x[8], S11, 0x698098d8);
    d := FF(d, a, b, c, x[9], S12, 0x8b44f7af);
    c := FF(c, d, a, b, x[10], S13, 0xffff5bb1);
    b := FF(b, c, d, a, x[11], S14, 0x895cd7be);
    FourRounds(s, x, 12);
    a := FF(a, b, c, d, x[12], S11, 0x6b901122);
    d := FF(d, a, b, c, x[13], S12, 0xfd987193);
    c := FF(c, d, a, b, x[14], S13, 0xa679438e);
    b := FF(b, c, d, a, x[15], S14, 0x49b40821);
    r := Digest(a, b, c, d);
  }

  method Round2(ghost s: Digest, val: Digest, x: seq<Word>) returns (r: Digest)
    requires |x| == 16 && val == Rounds(s, x, 16)
    ensures r == Rounds(s, x, 32)
  {
    hide Mix, F, G, H, I, Add, Rounds, RotateLeft, FF, GG, HH, II;
    var Digest(a, b, c, d) := val;
    FourRounds(s, x, 16);
    a := GG(a, b, c, d, x[1], S21, 0xf61e2562);
    d := GG(d, a, b, c, x[6], S22, 0xc040b340);
    c := GG(c, d, a, b, x[11], S23, 0x265e5a51);
    b := GG(b, c, d, a, x[0], S24, 0xe9b6c7aa);
    FourRounds(s, x, 20);
    a := GG(a, b, c, d, x[5], S21, 0xd62f105d);
    d := GG(d, a, b, c, x[10], S22, 0x2441453);
    c := GG(c, d, a, b, x[15], S23, 0xd8a1e681);
    b := GG(b, c, d, a, x[4], S24, 0xe7d3fbc8);
    FourRounds(s, x, 24);
    a := GG(a, b, c, d, x[9], S21, 0x21e1cde6);
    d := GG(d, a, b, c, x[14], S22, 0xc33707d6);
    c := GG(c, d, a, b, x[3], S23, 0xf4d50d87);
    b := GG(b, c, d, a, x[8], S24, 0x455a14ed);
    FourRounds(s, x, 28);
    a := GG(a, b, c, d, x[13], S21, 0xa9e3e905);
    d := GG(d, a, b, c, x[2], S22, 0xfcefa3f8);
    c := GG(c, d, a, b, x[7], S23, 0x676f02d9);
    b := GG(b, c, d, a, x[12], S24, 0x8d2a4c8a);
    r := Digest(a, b, c, d);
  }

  method Round3(ghost s: Digest, val: Digest, x: seq<Word>) returns (r: Digest)
    requires |x| == 16 && val == Rounds(s, x, 32)
    ensures r == Rounds(s, x, 48)
  {
    hide Mix, F, G, H, I, Add, Rounds, RotateLeft, FF, GG, HH, II;
    var Digest(a, b, c, d) := val;
    FourRounds(s, x, 32);
    a := HH(a, b, c, d, x[5], S31, 0xfffa3942);
    d := HH(d, a, b, c, x[8], S32, 0x8771f681);
    c := HH(c, d, a, b, x[11], S33, 0x6d9d6122);
    b := HH(b, c, d, a, x[14], S34, 0xfde5380c);
    FourRounds(s, x, 36);
    a := HH(a, b, c, d, x[1], S31, 0xa4beea44);
    d := HH(d, a, b, c, x[4], S32, 0x4bdecfa9);
    c := HH(c, d, a, b, x[7], S33, 0xf6bb4b60);
    b := HH(b, c, d, a, x[10], S34, 0xbebfbc70);
    FourRounds(s, x, 40);
    a := HH(a, b, c, d, x[13], S31, 0x289b7ec6);
    d := HH(d, a, b, c, x[0], S32, 0xeaa127fa);
    c := HH(c, d, a, b, x[3], S33, 0xd4ef3085);
    b := HH(b, c, d, a, x[6], S34, 0x4881d05);
    FourRounds(s, x, 44);
    a := HH(a, b, c, d, x[9], S31, 0xd9d4d039);
    d := HH(d, a, b, c, x[12], S32, 0xe6db99e5);
    c := HH(c, d, a, b, x[15], S33, 0x1fa27cf8);
    b := HH(b, c, d, a, x[2], S34, 0xc4ac5665);
    r := Digest(a, b, c, d);
  }

  method Round4(ghost s: Digest, val: Digest, x: seq<Word>) returns (r: Digest)
    requires |x| == 16 && val == Rounds(s, x, 48)
    ensures r == Rounds(s, x, 64)
  {
    hide Mix, F, G, H, I, Add, Rounds, RotateLeft, FF, GG, HH, II;
    var Digest(a, b, c, d) := val;
    FourRounds(s, x, 48);
    a := II(a, b, c, d, x[0], S41, 0xf4292244);
    d := II(d, a, b, c, x[7], S42, 0x432aff97);
    c := II(c, d, a, b, x[14], S43, 0xab9423a7);
    b := II(b, c, d, a, x[5], S44, 0xfc93a039);
    FourRounds(s, x, 52);
    a := II(a, b, c, d, x[12], S41, 0x655b59c3);
    d := II(d, a, b, c, x[3], S42, 0x8f0ccc92);
    c := II(c, d, a, b, x[10], S43, 0xffeff47d);
    b := II(b, c, d, a, x[1], S44, 0x85845dd1);
    FourRounds(s, x, 56);
    a := II(a, b, c, d, x[8], S41, 0x6fa87e4f);
    d := II(d, a, b, c, x[15], S42, 0xfe2ce6e0);
    c := II(c, d, a, b, x[6], S43, 0xa3014314);
    b := II(b, c, d, a, x[13], S44, 0x4e0811a1);
    FourRounds(s, x, 60);
    a := II(a, b, c, d, x[4], S41, 0xf7537e82);
    d := II(d, a, b, c, x[11], S42, 0xbd3af235);
    c := II(c, d, a, b, x[2], S43, 0x2ad7d2bb);
    b := II(b, c, d, a, x[9], S44, 0xeb86d391);
    r := Digest(a, b, c, d);
  }

  /** One turn of the block loop. */
  method Transform(val: Digest, x: seq<Word>) returns (r: Digest)
    requires |x| == 16
    ensures r == Plus(val, Rounds(val, x, 64))
  {
    hide Add, Rounds;
    assert val == Rounds(val, x, 0) by { NoRounds(val, x); }
    r := Round1(val, val, x);
    r := Round2(val, r, x);
    r := Round3(val, r, x);
    r := Round4(val, r, x);
    r := Digest(Add(r.a, val.a), Add(r.b, val.b), Add(r.c, val.c), Add(r.d, val.d));
    Swaps(val, Rounds(val, x, 64));
  }

  lemma NoRounds(s: Digest, x: seq<Word>)
    requires |x| == 16
    ensures Rounds(s, x, 0) == s
  {
  }

  lemma Swaps(s: Digest, r: Digest)
    ensures Plus(s, r) == Digest(Add(r.a, s.a), Add(r.b, s.b), Add(r.c, s.c), Add(r.d, s.d))
  {
  }

  // ---- Sizes ----

  /** The buffer size the code computes, in 32-bit arithmetic. */
  function PaddedSize(n: uint32): uint32 {
    var m := n % 64;
    (n - m + if m < 56 then 64 else 128) % 0x1_0000_0000
  }

  /** The size is right exactly up to MAX_SIZE; beyond it, it wraps and even the message does not fit. */
  lemma PaddedSizeExactly(m: seq<Octet>)
    requires |m| < 0x1_0000_0000
    ensures PaddedSize(|m|) == |Pad(m)| <==> |m| <= MAX_SIZE
    ensures |m| > MAX_SIZE ==> PaddedSize(|m|) < |m|
  {
    PadLength(m);
  }

  /** The two words stored at the end are the 64-bit bit length. */
  lemma LengthWords(n: uint32)
    ensures Octets(n * 8 % 0x1_0000_0000, 4) + Octets(n / 0x2000_0000, 4) == Octets(8 * n, 8)
  {
    assert Power(4) == 0x1_0000_0000;
    hide Octets, Power;
    SplitOctets(n * 8 % 0x1_0000_0000, n / 0x2000_0000, 4, 4);
    BitLength(n);
  }

  lemma BitLength(n: uint32)
    ensures n * 8 % 0x1_0000_0000 + n / 0x2000_0000 * 0x1_0000_0000 == 8 * n
  {
  }

  lemma {:induction false} SplitOctets(low: nat, high: nat, n: nat, m: nat)
    requires low < Power(n)
    ensures Octets(low, n) + Octets(high, m) == Octets(low + high * Power(n), n + m)
  {
    if n > 0 {
      var shifted := high * Power(n - 1);
      assert high * Power(n) == 256 * shifted;
      LowOctet(low, shifted);
      SplitOctets(low / 256, high, n - 1, m);
    }
  }

  lemma LowOctet(low: nat, shifted: nat)
    ensures (low + 256 * shifted) / 256 == low / 256 + shifted && (low + 256 * shifted) % 256 == low % 256
  {
  }

  // ---- The whole function ----

  /** A C string, up to its terminator. */
  function UpToNul(s: seq<Octet>): seq<Octet>
    requires 0 in s
  {
    if s[0] == 0 then [] else [s[0]] + UpToNul(s[1..])
  }

  /** What is hashed: size 0 stands for a C string. */
  function Message(s: seq<Octet>, size: nat): seq<Octet>
    requires size <= |s| && (size == 0 ==> 0 in s)
  {
    if size == 0 then UpToNul(s) else s[..size]
  }

  lemma OneMoreChar(s: seq<Octet>, n: nat)
    requires n < |s| && 0 in s[n..] && s[n] != 0
    ensures 0 in s[n + 1..] && s[..n + 1] + UpToNul(s[n + 1..]) == s[..n] + UpToNul(s[n..])
  {
    assert s[n..][1..] == s[n + 1..];
    assert s[..n + 1] == s[..n] + [s[n]];
  }

  method StrLen(str: array<Octet>) returns (n: nat)
    requires 0 in str[..]
    ensures n < str.Length && str[..n] == UpToNul(str[..]) && str[n] == 0 && 0 !in str[..n]
  {
    n := 0;
    while str[n] != 0
      invariant n < str.Length && 0 in str[..][n..] && 0 !in str[..n]
      invariant str[..][..n] + UpToNul(str[..][n..]) == UpToNul(str[..])
      decreases str.Length - n
    {
      OneMoreChar(str[..], n);
      n := n + 1;
    }
  }

  method SizeOf(str: array<Octet>, size: uint32) returns (n: uint32)
    requires size <= str.Length && (size == 0 ==> 0 in str[..])
    requires |Message(str[..], size)| <= MAX_SIZE
    ensures n <= str.Length && n <= MAX_SIZE && str[..n] == Message(str[..], size)
  {
    n := size;
    if n == 0 {
      var length := StrLen(str);
      n := length;
    }
  }

  method StoreWord(a: array<Octet>, p: nat, w: uint32)
    requires p + 4 <= a.Length
    modifies a
    ensures a[p..p + 4] == Octets(w, 4) && a[..p] == old(a[..p]) && a[p + 4..] == old(a[p + 4..])
  {
    a[p] := w % 256;
    a[p + 1] := w / 256 % 256;
    a[p + 2] := w / 256 / 256 % 256;
    a[p + 3] := w / 256 / 256 / 256 % 256;
    FourOctets(w);
  }

  lemma FourOctets(w: nat)
    ensures Octets(w, 4) == [w % 256, w / 256 % 256, w / 256 / 256 % 256, w / 256 / 256 / 256 % 256]
  {
    var w1 := w / 256;
    var w2 := w1 / 256;
    var w3 := w2 / 256;
    assert Octets(w3, 1) == [w3 % 256];
    assert Octets(w2, 2) == [w2 % 256] + Octets(w3, 1);
    assert Octets(w1, 3) == [w1 % 256] + Octets(w2, 2);
  }

  lemma MoreZeros(n: nat)
    ensures Zeros(n) + [0] == Zeros(n + 1)
  {
  }

  /** The copy, the one bit, the zeros and the length. */
  method PadInPlace(str: array<Octet>, n: uint32) returns (strw: array<Octet>)
    requires n <= str.Length && n <= MAX_SIZE
    ensures fresh(strw) && strw[..] == Pad(str[..n])
  {
    hide Octets, Zeros, PaddedSize;
    ghost var m := str[..n];
    PaddedSizeExactly(m);
    PadLength(m);
    var size := PaddedSize(n);
    strw := new Octet[size];
    var i := 0;
    while i < n
      invariant i <= n && strw[..i] == m[..i]
    {
      strw[i] := str[i];
      i := i + 1;
    }
    strw[i] := 0x80;
    i := i + 1;
    while i < size - 8
      invariant n + 1 <= i <= size - 8
      invariant strw[..n] == m && strw[n] == 0x80 && strw[n + 1..i] == Zeros(i - n - 1)
    {
      strw[i] := 0;
      i := i + 1;
      assert strw[..n] == m;
      assert strw[n + 1..i] == strw[n + 1..i - 1] + [0];
      MoreZeros(i - n - 2);
    }
    assert strw[..i] == m + [0x80] + Zeros(i - n - 1);
    StoreLength(strw, i, n);
  }

  method StoreLength(a: array<Octet>, p: nat, n: uint32)
    requires a.Length == p + 8
    modifies a
    ensures a[..] == old(a[..p]) + Octets(8 * n, 8)
  {
    hide Octets;
    StoreWord(a, p, n * 8 % 0x1_0000_0000);
    StoreWord(a, p + 4, n / 0x2000_0000);
    LengthWords(n);
    assert a[..p + 4] == a[..p] + a[p..p + 4];
    assert a[..] == a[..p + 4] + a[p + 4..p + 8];
  }

  lemma FullBlocks(m: seq<Octet>)
    ensures |Pad(m)| % 64 == 0 && Hash(m) == Blocks(Pad(m), |Pad(m)| / 64)
  {
    PadLength(m);
  }

  /** The block loop. */
  method HashBlocks(strw: array<Octet>) returns (val: Digest)
    requires strw.Length % 64 == 0
    ensures val == Blocks(strw[..], strw.Length / 64)
  {
    hide Blocks, Rounds, Block, Plus;
    val := INITIAL;
    NoBlocks(strw[..]);
    var i := 0;
    while i < strw.Length
      invariant 0 <= i <= strw.Length && i % 64 == 0
      invariant val == Blocks(strw[..], i / 64)
    {
      var x := Block(strw[..], i);
      OneMoreBlock(strw[..], i);
      val := Transform(val, x);
      i := i + 64;
    }
  }

  lemma NoBlocks(bytes: seq<Octet>)
    ensures Blocks(bytes, 0) == INITIAL
  {
  }

  lemma OneMoreBlock(bytes: seq<Octet>, i: nat)
    requires i % 64 == 0 && i + 64 <= |bytes|
    ensures Blocks(bytes, i / 64 + 1) == Plus(Blocks(bytes, i / 64), Rounds(Blocks(bytes, i / 64), Block(bytes, i), 64))
  {
    hide Rounds, Block, Plus;
    assert 64 * (i / 64) == i;
  }

  /** For every message of up to MAX_SIZE octets the four words are those of RFC 1321. */
  method Md5OfString(str: array<Octet>, size: uint32) returns (val: Digest)
    requires size <= str.Length && (size == 0 ==> 0 in str[..])
    requires |Message(str[..], size)| <= MAX_SIZE
    ensures val == Hash(Message(str[..], size))
  {
    hide *;
    var n := SizeOf(str, size);
    var strw := PadInPlace(str, n);
    FullBlocks(str[..n]);
    val := HashBlocks(strw);
  }

  // ---- The printed and the binary form ----

  /** The octets of a word as they lie in memory: low octet first. */
  function InMemory(w: bv32): (s: seq<bv8>)
    ensures |s| == 4
  {
    [(w & 0xff) as bv8, ((w >> 8) & 0xff) as bv8, ((w >> 16) & 0xff) as bv8, (w >> 24) as bv8]
  }

  /** They are the octets of the word, low octet first, and determine it. */
  lemma InMemoryIsWord(w: bv32)
    ensures var s := InMemory(w);
      s[0] as bv32 | (s[1] as bv32 << 8) | (s[2] as bv32 << 16) | (s[3] as bv32 << 24) == w
  {
  }

  function WordsInMemory(a: bv32, b: bv32, c: bv32, d: bv32): seq<bv8> {
    InMemory(a) + InMemory(b) + InMemory(c) + InMemory(d)
  }

  /** The digest octets in the order section 3.5 of RFC 1321 outputs them. */
  function DigestOctets(val: Digest): seq<bv8> {
    WordsInMemory(val.a as bv32, val.b as bv32, val.c as bv32, val.d as bv32)
  }

  function HexDigit(n: bv8): char
    requires n < 16
  {
    "0123456789abcdef"[n as int]
  }

  /** Two digits for every octet. */
  function Hex(s: seq<bv8>): string {
    if s == [] then "" else [HexDigit(s[0] >> 4), HexDigit(s[0] & 0xf)] + Hex(s[1..])
  }

  /** The value of a hexadecimal digit. */
  function DigitValue(c: char): int {
    if '0' <= c <= '9' then c as int - '0' as int else c as int - 'a' as int + 10
  }

  /** The text reads back as the octets: two digits each, the high one first. */
  lemma {:induction false} HexReads(s: seq<bv8>, i: nat)
    requires i < |s|
    ensures |Hex(s)| == 2 * |s| && ReadsAs(Hex(s)[2 * i], Hex(s)[2 * i + 1], s[i])
  {
    hide HexDigit, ReadsAs;
    TwoDigits(s[0]);
    if |s| > 1 {
      HexReads(s[1..], if i == 0 then 0 else i - 1);
    }
  }

  predicate ReadsAs(high: char, low: char, x: bv8) {
    16 * DigitValue(high) + DigitValue(low) == x as int
  }

  lemma TwoDigits(x: bv8)
    ensures ReadsAs(HexDigit(x >> 4), HexDigit(x & 0xf), x)
  {
    DigitOf(x >> 4);
    DigitOf(x & 0xf);
    assert 16 * (x >> 4) as int + (x & 0xf) as int == x as int;
  }

  lemma DigitOf(n: bv8)
    requires n < 16
    ensures DigitValue(HexDigit(n)) == n as int
  {
  }

  /** What the format %08x prints: the highest octet first, leading zeros kept. */
  function Hex08(w: bv32): string {
    Hex([(w >> 24) as bv8, ((w >> 16) & 0xff) as bv8, ((w >> 8) & 0xff) as bv8, (w & 0xff) as bv8])
  }

  /** The octets of w in the other order. */
  predicate Reverses(r: bv32, w: bv32) {
    InMemory(r) == [InMemory(w)[3], InMemory(w)[2], InMemory(w)[1], InMemory(w)[0]]
  }

  method Conv(a: bv32) returns (b: bv32)
    ensures Reverses(b, a)
  {
    b := 0;
    b := b | ((a << 24) & 0xff000000);
    b := b | ((a << 8) & 0x00ff0000);
    b := b | ((a >> 8) & 0x0000ff00);
    b := b | ((a >> 24) & 0x000000ff);
  }

  /** Printing a converted word prints the octets of the word in memory order. */
  lemma PrintsOctets(a: bv32, b: bv32)
    requires Reverses(b, a)
    ensures Hex08(b) == Hex(InMemory(a))
  {
    hide Hex;
    var s := InMemory(b);
    assert InMemory(a) == [s[3], s[2], s[1], s[0]];
  }

  lemma HexConcat(s: seq<bv8>, t: seq<bv8>)
    ensures Hex(s + t) == Hex(s) + Hex(t)
  {
    if s == [] {
      assert s + t == t;
    } else {
      assert (s + t)[0] == s[0] && (s + t)[1..] == s[1..] + t;
      HexConcat(s[1..], t);
    }
  }

  /** An output buffer of the caller, or NULL. */
  datatype Output<T> = Skipped | Written(value: T)

  /** The outputs that are asked for agree with each other and with the definition: the digest octets, and their
      hexadecimal form. */
  method GetMd5(str: array<Octet>, size: uint32, wantAscii: bool, wantBinary: bool)
    returns (ascii: Output<string>, binary: Output<seq<bv8>>)
    requires size <= str.Length && (size == 0 ==> 0 in str[..])
    requires |Message(str[..], size)| <= MAX_SIZE
    ensures var octets := DigestOctets(Hash(Message(str[..], size)));
      && ascii == (if wantAscii then Written(Hex(octets)) else Skipped)
      && binary == (if wantBinary then Written(octets) else Skipped)
  {
    hide Hash, Message, Hex, WordsInMemory;
    var val := Md5OfString(str, size);
    ascii, binary := Skipped, Skipped;
    if wantAscii {
      var text := Print(val.a as bv32, val.b as bv32, val.c as bv32, val.d as bv32);
      ascii := Written(text);
    }
    if wantBinary {
      binary := Written(DigestOctets(val));
    }
  }

  method Print(wa: bv32, wb: bv32, wc: bv32, wd: bv32) returns (ascii: string)
    ensures ascii == Hex(WordsInMemory(wa, wb, wc, wd))
  {
    hide *;
    var a := Conv(wa);
    var b := Conv(wb);
    var c := Conv(wc);
    var d := Conv(wd);
    ascii := Hex08(a) + Hex08(b) + Hex08(c) + Hex08(d);
    PrintsWords(wa, wb, wc, wd, a, b, c, d);
  }

  lemma PrintsWords(wa: bv32, wb: bv32, wc: bv32, wd: bv32, a: bv32, b: bv32, c: bv32, d: bv32)
    requires Reverses(a, wa) && Reverses(b, wb) && Reverses(c, wc) && Reverses(d, wd)
    ensures Hex08(a) + Hex08(b) + Hex08(c) + Hex08(d) == Hex(WordsInMemory(wa, wb, wc, wd))
  {
    hide InMemory, Hex, Hex08, Reverses;
    PrintsOctets(wa, a);
    PrintsOctets(wb, b);
    PrintsOctets(wc, c);
    PrintsOctets(wd, d);
    HexConcat(InMemory(wa) + InMemory(wb) + InMemory(wc), InMemory(wd));
    HexConcat(InMemory(wa) + InMemory(wb), InMemory(wc));
    HexConcat(InMemory(wa), InMemory(wb));
  }
}
