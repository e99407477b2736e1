/** Bytes, 32-bit words and the one multi-byte number format shared by the other modules. */
module Bytes {

  type byte = b: int | 0 <= b < 0x100

  type uint32 = w: int | 0 <= w < 0x1_0000_0000

  /** A four-byte field in network byte order, as `ntohl` reads it. */
  function BigEndian32(s: seq<byte>): uint32
    requires |s| == 4
  {
    s[0] as int * 0x100_0000 + s[1] as int * 0x1_0000 + s[2] as int * 0x100 + s[3] as int
  }

  /** The four octets of a word, highest first, as `htonl` leaves them in memory. */
  function NetworkOctets(w: uint32): (s: seq<byte>)
    ensures |s| == 4
  {
    [w / 0x100_0000, w / 0x1_0000 % 0x100, w / 0x100 % 0x100, w % 0x100]
  }

  /** Reading undoes writing, and nothing else reads as the same number. */
  lemma BigEndian32RoundTrip(w: uint32, s: seq<byte>)
    requires |s| == 4
    ensures BigEndian32([w / 0x100_0000, w / 0x1_0000 % 0x100, w / 0x100 % 0x100, w % 0x100]) == w
    ensures BigEndian32(s) == w <==> s == NetworkOctets(w)
  {
    var high, low := w / 0x1_0000, w % 0x1_0000;
    assert w / 0x100_0000 == high / 0x100 && w / 0x100 % 0x100 == low / 0x100 && w % 0x100 == low % 0x100;
    var v := BigEndian32(s);
    assert v / 0x1_0000 == s[0] as int * 0x100 + s[1] as int && v % 0x1_0000 == s[2] as int * 0x100 + s[3] as int;
  }
}
