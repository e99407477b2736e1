/**
 The per-buffer frame scanner: header fields, the parse decision for one frame, the scan of one
 receive buffer, and what holds of a single scan whatever lies in memory after the buffer.
 */
module Framing {
  import opened Bytes

  const MAGIC: seq<byte> := [0xA2, 0xA2, 0x2A, 0x2A]
  const HEADER := 20
  const PROTOCOL_NOT_EXIST := -2
  const MAX_BUFFER := 0x8000_0000

  const VER_NEGO_REQ := 0x0001
  const LINK_AUTH_REQ := 0x0002
  const VER_NEGO_RESP := 0x8001
  const LINK_AUTH_RESP := 0x8002

  /** What a read past the end of the buffer returns: the arguments are the number of buffer bytes
      left at the position being examined and the distance of the byte read from that position. */
  type Beyond = (nat, nat) -> byte

  /** Whether the body deserialiser of a message type accepts the bytes after the header. */
  type BodyReader = (uint32, seq<byte>) -> bool

  /** Bytes lo..hi counted from the start of b, running past its end. */
  function Look(b: seq<byte>, lo: nat, hi: nat, beyond: Beyond): (s: seq<byte>)
    requires lo <= hi
    ensures |s| == hi - lo
    ensures hi <= |b| ==> s == b[lo..hi]
  {
    seq(hi - lo, k requires 0 <= k < hi - lo => if lo + k < |b| then b[lo + k] else beyond(|b|, lo + k))
  }

  /** parse_data_total_len. */
  function TotalLen(b: seq<byte>, beyond: Beyond): uint32 {
    BigEndian32(Look(b, 8, 12, beyond))
  }

  function MsgType(b: seq<byte>): uint32
    requires HEADER <= |b|
  {
    BigEndian32(b[4..8])
  }

  predicate KnownType(t: uint32) {
    t in {VER_NEGO_REQ, VER_NEGO_RESP, LINK_AUTH_REQ, LINK_AUTH_RESP}
  }

  /** read_packet: a whole header, then whatever the body reader of the type accepts. */
  predicate ReadPacket(t: uint32, p: seq<byte>, body: BodyReader) {
    HEADER <= |p| && body(t, p[HEADER..])
  }

  function ToInt32(w: uint32): int {
    if w < 0x8000_0000 then w else w - 0x1_0000_0000
  }

  function ToUint32(i: int): uint32
    requires -0x8000_0000 <= i < 0x8000_0000
  {
    if i < 0 then i + 0x1_0000_0000 else i
  }

  /** parse_packet: the return code, and whether the packet out-parameter was set. */
  function ParsePacket(b: seq<byte>, size: nat, body: BodyReader): (int, bool)
    requires HEADER <= |b| && size <= |b|
  {
    var t := MsgType(b);
    if !KnownType(t) then (PROTOCOL_NOT_EXIST, false)
    else if ReadPacket(t, b[..size], body) then (0, true)
    else (-1, true)
  }

  /** parse_data. */
  function ParseData(b: seq<byte>, beyond: Beyond, body: BodyReader): int
    requires |b| < MAX_BUFFER
  {
    var total := ToInt32(TotalLen(b, beyond));
    if |b| < HEADER then 0
    else if ToUint32(total) > |b| then 0
    else
      var (ret, packet) := ParsePacket(b, total, body);
      if ret == 0 then (if packet then total else -1)
      else if ret != PROTOCOL_NOT_EXIST then -1
      else PROTOCOL_NOT_EXIST
  }

  datatype Verdict = Skip | SkipUnknown | Frame(len: nat) | Stop

  /** What one turn of the scan loop does with the bytes from the current offset on. */
  function Judge(b: seq<byte>, beyond: Beyond, body: BodyReader): (v: Verdict)
    requires 0 < |b| < MAX_BUFFER
    ensures v.Frame? ==> HEADER <= v.len <= |b|
  {
    if Look(b, 0, 4, beyond) != MAGIC then Skip
    else if TotalLen(b, beyond) > |b| then Stop
    else
      var len := ParseData(b, beyond, body);
      if len > 0 then Frame(len)
      else if len == 0 then Stop
      else if len == PROTOCOL_NOT_EXIST then SkipUnknown
      else Skip
  }

  /** What a scan does, in order. An unknown packet is reported with the rest of the buffer. */
  datatype Item =
    | Delivered(frame: seq<byte>)
    | Skipped(b: byte)
    | Unknown(b: byte, rest: seq<byte>)

  /** The bytes an item takes from the buffer. */
  function ItemBytes(i: Item): seq<byte> {
    match i
    case Delivered(f) => f
    case Skipped(b) => [b]
    case Unknown(b, _) => [b]
  }

  /** The bytes a verdict moves past, and what it does with them. */
  function Size(v: Verdict): (n: nat)
    requires v.Frame? ==> HEADER <= v.len
    ensures 1 <= n
  {
    if v.Frame? then v.len else 1
  }

  function Take(b: seq<byte>, v: Verdict): (i: Item)
    requires v != Stop && b != []
    requires v.Frame? ==> HEADER <= v.len <= |b|
    ensures ItemBytes(i) == b[..Size(v)]
  {
    match v
    case Frame(n) => Delivered(b[..n])
    case Skip => Skipped(b[0])
    case SkipUnknown => Unknown(b[0], b[1..])
  }

  /** The scan of a whole buffer, one loop turn at a time. */
  function Scan(b: seq<byte>, beyond: Beyond, body: BodyReader): seq<Item>
    requires |b| < MAX_BUFFER
    decreases |b|
  {
    if b == [] then []
    else
      var v := Judge(b, beyond, body);
      if v == Stop then [] else [Take(b, v)] + Scan(b[Size(v)..], beyond, body)
  }

  function Consumed(items: seq<Item>): seq<byte> {
    if items == [] then [] else ItemBytes(items[0]) + Consumed(items[1..])
  }

  function Frames(items: seq<Item>): seq<seq<byte>> {
    if items == [] then []
    else (if items[0].Delivered? then [items[0].frame] else []) + Frames(items[1..])
  }

  lemma {:induction false} ConsumedConcat(a: seq<Item>, b: seq<Item>)
    ensures Consumed(a + b) == Consumed(a) + Consumed(b)
    ensures Frames(a + b) == Frames(a) + Frames(b)
  {
    if a == [] {
      assert a + b == b;
    } else {
      assert (a + b)[0] == a[0] && (a + b)[1..] == a[1..] + b;
      ConsumedConcat(a[1..], b);
      Associative(ItemBytes(a[0]), Consumed(a[1..]), Consumed(b));
      Associative(if a[0].Delivered? then [a[0].frame] else [], Frames(a[1..]), Frames(b));
    }
  }

  lemma Associative<T>(a: seq<T>, b: seq<T>, c: seq<T>)
    ensures a + b + c == a + (b + c)
  {
  }

  /** A scan only takes bytes off the front: delivered frames and single skipped bytes, in order,
      are exactly the part of the buffer before the final offset. */
  lemma {:induction false} ScanPartition(b: seq<byte>, beyond: Beyond, body: BodyReader)
    requires |b| < MAX_BUFFER
    ensures Consumed(Scan(b, beyond, body)) <= b
    decreases |b|
  {
    if b != [] {
      var v := Judge(b, beyond, body);
      if v != Stop {
        ScanPartition(b[Size(v)..], beyond, body);
        ConsumedCons(Take(b, v), Scan(b[Size(v)..], beyond, body));
        PrefixCons(b, Size(v), Consumed(Scan(b[Size(v)..], beyond, body)));
      }
    }
  }

  lemma ConsumedCons(i: Item, items: seq<Item>)
    ensures Consumed([i] + items) == ItemBytes(i) + Consumed(items)
    ensures Frames([i] + items) == (if i.Delivered? then [i.frame] else []) + Frames(items)
  {
    assert ([i] + items)[1..] == items;
  }

  lemma PrefixCons<T>(b: seq<T>, n: nat, p: seq<T>)
    requires n <= |b| && p <= b[n..]
    ensures b[..n] + p <= b
  {
    assert b == b[..n] + b[n..];
  }

  /** A frame the parser accepts: complete, self-consistent and of a known type. */
  predicate GoodFrame(f: seq<byte>, body: BodyReader) {
    && HEADER <= |f| < MAX_BUFFER
    && f[..4] == MAGIC
    && BigEndian32(f[8..12]) == |f|
    && KnownType(BigEndian32(f[4..8]))
    && body(BigEndian32(f[4..8]), f[HEADER..])
  }

  /** A known type on the wire: a request or a response to one of two. */
  predicate KnownTypeOctets(s: seq<byte>) {
    s == [0, 0, 0, 1] || s == [0, 0, 0, 2] || s == [0, 0, 0x80, 1] || s == [0, 0, 0x80, 2]
  }

  lemma KnownTypeExactly(s: seq<byte>)
    requires |s| == 4
    ensures KnownType(BigEndian32(s)) <==> KnownTypeOctets(s)
  {
    BigEndian32RoundTrip(0x0001, s);
    BigEndian32RoundTrip(0x0002, s);
    BigEndian32RoundTrip(0x8001, s);
    BigEndian32RoundTrip(0x8002, s);
  }

  /** A good frame octet by octet: the magic word, a known type, its own length high octet first, a body that
      the reader of the type accepts. */
  lemma GoodFrameExactly(f: seq<byte>, body: BodyReader)
    requires |f| < MAX_BUFFER
    ensures GoodFrame(f, body) <==>
      && 20 <= |f| && f[..4] == [0xA2, 0xA2, 0x2A, 0x2A] && KnownTypeOctets(f[4..8])
      && f[8..12] == [|f| / 0x100_0000, |f| / 0x1_0000 % 0x100, |f| / 0x100 % 0x100, |f| % 0x100]
      && body(f[6] as int * 0x100 + f[7] as int, f[20..])
  {
    if 20 <= |f| {
      KnownTypeExactly(f[4..8]);
      BigEndian32RoundTrip(|f|, f[8..12]);
      if KnownTypeOctets(f[4..8]) {
        assert f[4] == f[4..8][0] && f[5] == f[4..8][1] && f[6] == f[4..8][2] && f[7] == f[4..8][3];
      }
    }
  }

  /** The verdict at a position, characterised by the bytes actually in the buffer: a frame exactly
      when one starts there complete, and no verdict on it depends on memory after the buffer. */
  lemma JudgeFrame(b: seq<byte>, beyond: Beyond, body: BodyReader, n: nat)
    requires 0 < |b| < MAX_BUFFER
    ensures Judge(b, beyond, body) == Frame(n) <==> n <= |b| && GoodFrame(b[..n], body)
  {
    if HEADER <= |b| {
      var total := TotalLen(b, beyond);
      if n <= |b| && HEADER <= n {
        assert b[..n][..4] == b[..4] && b[..n][4..8] == b[4..8] && b[..n][8..12] == b[8..12];
      }
    }
  }

  /** A complete frame, by its stated length, of a type nobody knows. */
  predicate UnknownFrame(b: seq<byte>) {
    20 <= |b| && b[..4] == [0xA2, 0xA2, 0x2A, 0x2A] && BigEndian32(b[8..12]) <= |b| && !KnownTypeOctets(b[4..8])
  }

  /** The scan waits where the magic word is seen and less than a header, or less than the stated length, is there. */
  predicate MustWait(b: seq<byte>, beyond: Beyond) {
    Look(b, 0, 4, beyond) == [0xA2, 0xA2, 0x2A, 0x2A] && (|b| < 20 || BigEndian32(b[8..12]) > |b|)
  }

  /** Every decision, by the octets at the position; what is none of the three is skipped. */
  lemma JudgeExactly(b: seq<byte>, beyond: Beyond, body: BodyReader)
    requires 0 < |b| < MAX_BUFFER
    ensures Judge(b, beyond, body) == Stop <==> MustWait(b, beyond)
    ensures Judge(b, beyond, body) == SkipUnknown <==> UnknownFrame(b)
    ensures Judge(b, beyond, body).Frame? <==> exists n: nat :: n <= |b| && GoodFrame(b[..n], body)
  {
    if 20 <= |b| {
      KnownTypeExactly(b[4..8]);
      assert Look(b, 0, 4, beyond) == b[..4];
    }
    var v := Judge(b, beyond, body);
    if v.Frame? {
      JudgeFrame(b, beyond, body, v.len);
    } else {
      forall n: nat | n <= |b| && GoodFrame(b[..n], body) ensures false {
        JudgeFrame(b, beyond, body, n);
      }
    }
  }

  /** What is done at an item's place in the buffer is what the octets from there on call for. */
  predicate ItemFits(b: seq<byte>, o: nat, item: Item, body: BodyReader)
    requires o < |b|
  {
    match item
    case Delivered(f) => o + |f| <= |b| && f == b[o..o + |f|] && GoodFrame(f, body)
    case Unknown(first, rest) => UnknownFrame(b[o..]) && first == b[o] && rest == b[o + 1..]
    case Skipped(first) => first == b[o] && !UnknownFrame(b[o..])
                           && forall n :: o <= n <= |b| ==> !GoodFrame(b[o..n], body)
  }

  /** Items taken from offset o on: each fits its place, and they end with the buffer or where the scan waits. */
  ghost predicate ItemsFit(b: seq<byte>, o: nat, items: seq<Item>, beyond: Beyond, body: BodyReader) {
    var end := o + |Consumed(items)|;
    && end <= |b| && (end == |b| || MustWait(b[end..], beyond))
    && forall i :: 0 <= i < |items| ==>
      var at := o + |Consumed(items[..i])|; at < end && !MustWait(b[at..], beyond) && ItemFits(b, at, items[i], body)
  }

  lemma ItemsFitCons(b: seq<byte>, o: nat, item: Item, rest: seq<Item>, beyond: Beyond, body: BodyReader)
    requires o < |b| && ItemFits(b, o, item, body) && !MustWait(b[o..], beyond)
    requires ItemsFit(b, o + |ItemBytes(item)|, rest, beyond, body) && 0 < |ItemBytes(item)|
    ensures ItemsFit(b, o, [item] + rest, beyond, body)
  {
    hide ItemFits, MustWait, Consumed, ItemBytes;
    var items := [item] + rest;
    ConsumedCons(item, rest);
    forall i | 0 <= i < |items|
      ensures var at := o + |Consumed(items[..i])|;
        at < o + |Consumed(items)| && !MustWait(b[at..], beyond) && ItemFits(b, at, items[i], body)
    {
      if i > 0 {
        assert items[..i] == [item] + rest[..i - 1] && items[i] == rest[i - 1];
        ConsumedCons(item, rest[..i - 1]);
      } else {
        assert items[..0] == [];
        NothingConsumed();
      }
    }
  }

  lemma NothingConsumed()
    ensures Consumed([]) == []
  {
  }

  /** The item of one decision. */
  lemma ItemAt(b: seq<byte>, o: nat, v: Verdict, beyond: Beyond, body: BodyReader)
    requires o < |b| < MAX_BUFFER && v == Judge(b[o..], beyond, body) != Stop
    ensures ItemFits(b, o, Take(b[o..], v), body) && !MustWait(b[o..], beyond)
  {
    var here := b[o..];
    JudgeExactly(here, beyond, body);
    if v.Frame? {
      JudgeFrame(here, beyond, body, v.len);
      assert here[..v.len] == b[o..o + v.len];
    } else {
      assert here[1..] == b[o + 1..];
      forall n | o <= n <= |b| ensures !GoodFrame(b[o..n], body) {
        assert here[..n - o] == b[o..n];
        JudgeFrame(here, beyond, body, n - o);
      }
    }
  }

  /** The scan of a whole buffer, item by item: complete good frames are delivered, complete frames of unknown
      type are reported with what follows their first byte, everything else is skipped one byte at a time,
      until the end of the buffer or a place where the scan waits. */
  lemma ScanExactly(b: seq<byte>, beyond: Beyond, body: BodyReader)
    requires |b| < MAX_BUFFER
    ensures ItemsFit(b, 0, Scan(b, beyond, body), beyond, body)
  {
    assert b[0..] == b;
    ScanFromExactly(b, 0, beyond, body);
  }

  lemma {:induction false} ScanFromExactly(b: seq<byte>, o: nat, beyond: Beyond, body: BodyReader)
    requires o <= |b| < MAX_BUFFER
    ensures ItemsFit(b, o, Scan(b[o..], beyond, body), beyond, body)
    decreases |b| - o
  {
    hide Judge, Take, ItemFits, MustWait, ItemsFit;
    var here := b[o..];
    if o == |b| {
      EndsHere(b, o, beyond, body);
    } else {
      var v := Judge(here, beyond, body);
      if v == Stop {
        JudgeExactly(here, beyond, body);
        EndsHere(b, o, beyond, body);
      } else {
        ItemAt(b, o, v, beyond, body);
        assert here[Size(v)..] == b[o + Size(v)..];
        ScanFromExactly(b, o + Size(v), beyond, body);
        ItemsFitCons(b, o, Take(here, v), Scan(b[o + Size(v)..], beyond, body), beyond, body);
      }
    }
  }

  lemma EndsHere(b: seq<byte>, o: nat, beyond: Beyond, body: BodyReader)
    requires o == |b| || (o < |b| && MustWait(b[o..], beyond))
    ensures ItemsFit(b, o, [], beyond, body)
  {
  }

  /** A good frame of which at least the magic word, but not all, is in the buffer: the scan waits. */
  lemma JudgeIncomplete(f: seq<byte>, b: seq<byte>, beyond: Beyond, body: BodyReader)
    requires GoodFrame(f, body) && 4 <= |b| < |f| && b == f[..|b|]
    ensures Judge(b, beyond, body) == Stop
  {
    assert b[..4] == f[..4];
    if HEADER <= |b| {
      assert b[8..12] == f[8..12];
    }
  }

  /** Bytes where no magic word starts are skipped, unless fewer than four are left: then the scan may wait. */
  lemma JudgeNoMagic(b: seq<byte>, beyond: Beyond, body: BodyReader)
    requires 0 < |b| < MAX_BUFFER && !(MAGIC <= b)
    ensures Judge(b, beyond, body) == Skip || (Judge(b, beyond, body) == Stop && |b| < 4)
  {
    if 4 <= |b| {
      assert Look(b, 0, 4, beyond) == b[..4];
    }
  }

  /** Every frame delivered from any buffer is a good one. */
  lemma {:induction false} ScanDeliversGoodFrames(b: seq<byte>, beyond: Beyond, body: BodyReader)
    requires |b| < MAX_BUFFER
    ensures forall f :: f in Frames(Scan(b, beyond, body)) ==> GoodFrame(f, body)
    decreases |b|
  {
    if b != [] {
      var v := Judge(b, beyond, body);
      if v != Stop {
        if v.Frame? { JudgeFrame(b, beyond, body, v.len); }
        ScanDeliversGoodFrames(b[Size(v)..], beyond, body);
        ConsumedCons(Take(b, v), Scan(b[Size(v)..], beyond, body));
      }
    }
  }

  /** With fewer bytes than a header left nothing can be delivered. */
  lemma {:induction false} ShortScanDeliversNothing(b: seq<byte>, beyond: Beyond, body: BodyReader)
    requires |b| < HEADER
    ensures Frames(Scan(b, beyond, body)) == []
    decreases |b|
  {
    if b != [] && Judge(b, beyond, body) != Stop {
      var v := Judge(b, beyond, body);
      ShortScanDeliversNothing(b[1..], beyond, body);
      ConsumedCons(Take(b, v), Scan(b[1..], beyond, body));
    }
  }

  /** Outside the last three bytes of a buffer, a verdict that moves on is the verdict the
      same position gets in every longer buffer, whatever follows either buffer in memory. */
  lemma JudgeStable(b: seq<byte>, more: seq<byte>, here: Beyond, there: Beyond, body: BodyReader)
    requires 4 <= |b| && |b + more| < MAX_BUFFER
    requires Judge(b, here, body) != Stop
    ensures Judge(b + more, there, body) == Judge(b, here, body)
  {
    var c := b + more;
    assert c[..4] == b[..4];
    if HEADER <= |b| {
      assert c[4..8] == b[4..8] && c[8..12] == b[8..12];
      var total := TotalLen(b, here);
      if total <= |b| {
        assert c[..total] == b[..total];
      }
    }
  }

  /** Scan monotonicity: more input never changes what was already delivered. */
  lemma {:induction false} ScanMonotone(b: seq<byte>, more: seq<byte>, here: Beyond, there: Beyond, body: BodyReader)
    requires |b + more| < MAX_BUFFER
    ensures Frames(Scan(b, here, body)) <= Frames(Scan(b + more, there, body))
    decreases |b|
  {
    if |b| < HEADER {
      ShortScanDeliversNothing(b, here, body);
    } else {
      var c := b + more;
      var v := Judge(b, here, body);
      if v != Stop {
        JudgeStable(b, more, here, there, body);
        assert c[Size(v)..] == b[Size(v)..] + more;
        assert v.Frame? ==> c[..v.len] == b[..v.len];
        ScanMonotone(b[Size(v)..], more, here, there, body);
        ConsumedCons(Take(b, v), Scan(b[Size(v)..], here, body));
        ConsumedCons(Take(c, v), Scan(c[Size(v)..], there, body));
      }
    }
  }

  /** A scan stopped at offset o: items taken so far, and the scan of the rest still to come. */
  ghost predicate Halfway(whole: seq<byte>, o: nat, items: seq<Item>, beyond: Beyond, body: BodyReader)
    requires |whole| < MAX_BUFFER
  {
    && o <= |whole|
    && Consumed(items) == whole[..o]
    && items + Scan(whole[o..], beyond, body) == Scan(whole, beyond, body)
  }

  lemma Turn(whole: seq<byte>, o: nat, items: seq<Item>, v: Verdict, item: Item, next: nat,
    beyond: Beyond, body: BodyReader)
    requires |whole| < MAX_BUFFER && o < |whole| && Halfway(whole, o, items, beyond, body)
    requires v == Judge(whole[o..], beyond, body) != Stop && item == Take(whole[o..], v)
    requires next == o + Size(v)
    ensures Halfway(whole, next, items + [item], beyond, body)
  {
    var here := whole[o..];
    assert here[Size(v)..] == whole[next..];
    assert Consumed(items + [item]) == whole[..next] by {
      ConsumedSnoc(items, item);
      assert whole[..next] == whole[..o] + here[..Size(v)];
    }
    Associative(items, [item], Scan(whole[next..], beyond, body));
  }

  lemma ConsumedSnoc(items: seq<Item>, i: Item)
    ensures Consumed(items + [i]) == Consumed(items) + ItemBytes(i)
  {
    ConsumedConcat(items, [i]);
    ConsumedCons(i, []);
    assert [i] + [] == [i];
  }

  /** The 32-bit sum can wrap, but only for lengths no buffer has: the test never refuses a frame
      that is complete, and what it lets through in error parse_data refuses. */
  lemma WrappedTest(total: uint32, offset: uint32, size: nat)
    requires offset <= size < MAX_BUFFER
    ensures (total as int + offset as int) % 0x1_0000_0000 > size ==> total > size - offset
  {
  }

  /** The scan loop of one receive buffer. Offsets are 32-bit, so the length test wraps. */
  method ScanBuffer(recvBuf: seq<byte>, beyond: Beyond, body: BodyReader)
    returns (items: seq<Item>, dataOffset: uint32)
    requires |recvBuf| < MAX_BUFFER
    ensures items == Scan(recvBuf, beyond, body) && ItemsFit(recvBuf, 0, items, beyond, body)
    ensures dataOffset <= |recvBuf| && recvBuf[..dataOffset] == Consumed(items)
  {
    items, dataOffset := [], 0;
    assert recvBuf[0..] == recvBuf && items + Scan(recvBuf, beyond, body) == Scan(recvBuf, beyond, body);
    while |recvBuf| - dataOffset > 0
      invariant Halfway(recvBuf, dataOffset, items, beyond, body)
      decreases |recvBuf| - dataOffset
    {
      var here := recvBuf[dataOffset..];
      var item;
      if Look(here, 0, 4, beyond) != MAGIC {
        item := Skipped(here[0]);
        Turn(recvBuf, dataOffset, items, Skip, item, dataOffset + 1, beyond, body);
        dataOffset, items := dataOffset + 1, items + [item];
        continue;
      }
      var totalLen := TotalLen(here, beyond);
      if (totalLen as int + dataOffset as int) % 0x1_0000_0000 > |recvBuf| {
        WrappedTest(totalLen, dataOffset, |recvBuf|);
        break;
      }
      var parseLen := ParseData(here, beyond, body);
      if parseLen > 0 {
        item := Delivered(here[..parseLen]);
        Turn(recvBuf, dataOffset, items, Frame(parseLen), item, dataOffset + parseLen, beyond, body);
        dataOffset, items := dataOffset + parseLen, items + [item];
      } else if parseLen == 0 {
        break;
      } else {
        if parseLen == PROTOCOL_NOT_EXIST {
          item := Unknown(here[0], here[1..]);
          Turn(recvBuf, dataOffset, items, SkipUnknown, item, dataOffset + 1, beyond, body);
        } else {
          item := Skipped(here[0]);
          Turn(recvBuf, dataOffset, items, Skip, item, dataOffset + 1, beyond, body);
        }
        dataOffset, items := dataOffset + 1, items + [item];
      }
    }
    StoppedScan(recvBuf[dataOffset..], beyond, body);
    ScanExactly(recvBuf, beyond, body);
  }

  /** The loop ends where the scan does. */
  lemma StoppedScan(b: seq<byte>, beyond: Beyond, body: BodyReader)
    requires |b| < MAX_BUFFER
    ensures b == [] || Judge(b, beyond, body) == Stop ==> Scan(b, beyond, body) == []
  {
  }
}
