/**
 Chunking independence: a stream of good frames separated by garbage, posted in any pieces and
 scanned in any number of passes, is delivered frame by frame, once each and in order.
 */
module FramingStream {
  import opened Bytes
  import opened Framing

  /** The sender's view of a stream: whole frames, and stray bytes between them. */
  datatype Segment = Garbage(b: byte) | Packet(frame: seq<byte>)

  function Raw(s: Segment): seq<byte> {
    match s
    case Garbage(b) => [b]
    case Packet(f) => f
  }

  function Flat(segs: seq<Segment>): seq<byte> {
    if segs == [] then [] else Raw(segs[0]) + Flat(segs[1..])
  }

  function Packets(segs: seq<Segment>): seq<seq<byte>> {
    if segs == [] then []
    else (if segs[0].Packet? then [segs[0].frame] else []) + Packets(segs[1..])
  }

  /** Frames are good ones (their bodies may hold the magic word); no magic word starts at a stray byte. */
  predicate Clean(segs: seq<Segment>, body: BodyReader) {
    segs != [] ==>
      && (match segs[0]
          case Garbage(_) => !(MAGIC <= Flat(segs))
          case Packet(f) => GoodFrame(f, body))
      && Clean(segs[1..], body)
  }

  /** The frames complete in the first t bytes of the stream. */
  function Complete(segs: seq<Segment>, t: nat): seq<seq<byte>> {
    if segs == [] || t < |Raw(segs[0])| then []
    else (if segs[0].Packet? then [segs[0].frame] else []) + Complete(segs[1..], t - |Raw(segs[0])|)
  }

  /** The first bytes of the frame that is still incomplete after t bytes, if there is one. */
  function Partial(segs: seq<Segment>, t: nat): seq<byte> {
    if segs == [] then []
    else if t < |Raw(segs[0])| then Raw(segs[0])[..t]
    else Partial(segs[1..], t - |Raw(segs[0])|)
  }

  /** A pass may end after t bytes: not one to three bytes into a frame, where those bytes can be lost. */
  predicate CutAllowed(segs: seq<Segment>, t: nat) {
    segs == [] || t == 0
    || (if t < |Raw(segs[0])| then 4 <= t else CutAllowed(segs[1..], t - |Raw(segs[0])|))
  }

  /** What a receiver keeps: the carried-over bytes, and everything its scans did so far. */
  datatype Receiver = Receiver(carry: seq<byte>, items: seq<Item>)

  /** The first k segments were taken and the carried bytes, a beginning of what follows, hold no
      complete frame: nothing is lost and nothing is left undelivered. */
  ghost predicate Synced(segs: seq<Segment>, k: nat, r: Receiver) {
    && k <= |segs|
    && Consumed(r.items) == Flat(segs[..k])
    && Frames(r.items) == Packets(segs[..k])
    && r.carry <= Flat(segs[k..])
    && Complete(segs[k..], |r.carry|) == []
  }

  lemma {:induction false} FlatConcat(a: seq<Segment>, b: seq<Segment>)
    ensures Flat(a + b) == Flat(a) + Flat(b)
    ensures Packets(a + b) == Packets(a) + Packets(b)
  {
    if a == [] {
      assert a + b == b;
    } else {
      assert (a + b)[0] == a[0] && (a + b)[1..] == a[1..] + b;
      FlatConcat(a[1..], b);
      Associative(Raw(a[0]), Flat(a[1..]), Flat(b));
      Associative(if a[0].Packet? then [a[0].frame] else [], Packets(a[1..]), Packets(b));
    }
  }

  lemma {:induction false} CleanSuffix(segs: seq<Segment>, k: nat, body: BodyReader)
    requires k <= |segs| && Clean(segs, body)
    ensures Clean(segs[k..], body)
  {
    if k == 0 {
      assert segs[0..] == segs;
    } else {
      CleanSuffix(segs[1..], k - 1, body);
      assert segs[1..][k - 1..] == segs[k..];
    }
  }

  /** Complete, Partial and CutAllowed after the first k segments. */
  lemma {:induction false} CompleteAfter(segs: seq<Segment>, k: nat, t: nat)
    requires k <= |segs| && |Flat(segs[..k])| <= t
    ensures Complete(segs, t) == Packets(segs[..k]) + Complete(segs[k..], t - |Flat(segs[..k])|)
  {
    if k == 0 {
      assert segs[0..] == segs && segs[..0] == [];
    } else {
      FlatCons(segs, k);
      CompleteAfter(segs[1..], k - 1, t - |Raw(segs[0])|);
      Associative(if segs[0].Packet? then [segs[0].frame] else [], Packets(segs[1..][..k - 1]),
                  Complete(segs[k..], t - |Flat(segs[..k])|));
    }
  }

  lemma {:induction false} PartialAfter(segs: seq<Segment>, k: nat, t: nat)
    requires k <= |segs| && |Flat(segs[..k])| <= t
    ensures Partial(segs, t) == Partial(segs[k..], t - |Flat(segs[..k])|)
  {
    if k == 0 {
      assert segs[0..] == segs && segs[..0] == [];
    } else {
      FlatCons(segs, k);
      PartialAfter(segs[1..], k - 1, t - |Raw(segs[0])|);
    }
  }

  lemma {:induction false} CutAfter(segs: seq<Segment>, k: nat, t: nat, body: BodyReader)
    requires k <= |segs| && |Flat(segs[..k])| <= t && Clean(segs, body)
    ensures CutAllowed(segs, t) <==> CutAllowed(segs[k..], t - |Flat(segs[..k])|)
  {
    if k == 0 {
      assert segs[0..] == segs && segs[..0] == [];
    } else {
      FlatCons(segs, k);
      CutAfter(segs[1..], k - 1, t - |Raw(segs[0])|, body);
    }
  }

  lemma FlatCons(segs: seq<Segment>, k: nat)
    requires 0 < k <= |segs|
    ensures Flat(segs[..k]) == Raw(segs[0]) + Flat(segs[1..][..k - 1])
    ensures Packets(segs[..k]) == (if segs[0].Packet? then [segs[0].frame] else []) + Packets(segs[1..][..k - 1])
    ensures segs[k..] == segs[1..][k - 1..]
  {
    assert segs[..k][1..] == segs[1..][..k - 1] && segs[..k][0] == segs[0];
  }

  lemma {:induction false} NothingCompleteInShort(segs: seq<Segment>, t: nat, body: BodyReader)
    requires Clean(segs, body) && t < HEADER
    ensures Complete(segs, t) == []
  {
    if segs != [] && |Raw(segs[0])| <= t {
      NothingCompleteInShort(segs[1..], t - |Raw(segs[0])|, body);
    }
  }

  /** What the scanner decides at the first segment, of which (and of what follows) b is a beginning. */
  lemma JudgeSegment(segs: seq<Segment>, b: seq<byte>, beyond: Beyond, body: BodyReader)
    requires segs != [] && Clean(segs, body)
    requires b != [] && b <= Flat(segs) && |b| < MAX_BUFFER && CutAllowed(segs, |b|)
    ensures Judge(b, beyond, body) != Stop ==> |Raw(segs[0])| <= |b| && CutAllowed(segs[1..], |b| - |Raw(segs[0])|)
    ensures var v := Judge(b, beyond, body);
      if v == Stop then |b| < (if segs[0].Packet? then |segs[0].frame| else 4)
      else |Raw(segs[0])| == Size(v) <= |b| && b[..Size(v)] == Raw(segs[0]) && (v.Frame? <==> segs[0].Packet?)
  {
    match segs[0]
    case Garbage(g) =>
      JudgeNoMagic(b, beyond, body);
    case Packet(f) =>
      if |f| <= |b| {
        assert b[..|f|] == f;
        JudgeFrame(b, beyond, body, |f|);
      } else {
        assert b == f[..|b|];
        JudgeIncomplete(f, b, beyond, body);
      }
  }

  /** The bytes b that a scan was given, and what it left of them, against the segments it took. */
  ghost predicate Took(segs: seq<Segment>, b: seq<byte>, items: seq<Item>, k: nat) {
    && k <= |segs|
    && Consumed(items) == Flat(segs[..k]) <= b
    && Frames(items) == Packets(segs[..k])
    && Complete(segs[k..], |b| - |Consumed(items)|) == []
  }

  lemma TookOneMore(segs: seq<Segment>, b: seq<byte>, item: Item, items: seq<Item>, k: nat)
    requires segs != [] && |Raw(segs[0])| <= |b| && ItemBytes(item) == Raw(segs[0]) == b[..|Raw(segs[0])|]
    requires item.Delivered? <==> segs[0].Packet?
    requires Took(segs[1..], b[|Raw(segs[0])|..], items, k)
    ensures Took(segs, b, [item] + items, k + 1)
  {
    FlatCons(segs, k + 1);
    ConsumedCons(item, items);
    PrefixCons(b, |Raw(segs[0])|, Consumed(items));
  }

  /** The single pass: scanning a beginning of a clean stream takes whole segments only, delivers
      their frames, and stops with no complete frame left. Returns how many segments were taken. */
  lemma {:induction false} ScanClean(segs: seq<Segment>, b: seq<byte>, beyond: Beyond, body: BodyReader)
      returns (k: nat)
    requires Clean(segs, body)
    requires b <= Flat(segs) && |b| < MAX_BUFFER && CutAllowed(segs, |b|)
    ensures Took(segs, b, Scan(b, beyond, body), k)
    ensures k == |segs| || |b| - |Consumed(Scan(b, beyond, body))| < 4 || segs[k..][0].Packet?
    decreases |segs|
  {
    hide Complete, Packets, Consumed, Frames, CutAllowed, Judge, GoodFrame;
    if segs == [] || b == [] || Judge(b, beyond, body) == Stop {
      k := 0;
      StopsClean(segs, b, beyond, body);
    } else {
      JudgeSegment(segs, b, beyond, body);
      var v := Judge(b, beyond, body);
      var b' := b[Size(v)..];
      DropFront(b, Raw(segs[0]), Flat(segs[1..]));
      var j := ScanClean(segs[1..], b', beyond, body);
      k := j + 1;
      TookOneMore(segs, b, Take(b, v), Scan(b', beyond, body), j);
      FlatCons(segs, k);
    }
  }

  lemma StopsClean(segs: seq<Segment>, b: seq<byte>, beyond: Beyond, body: BodyReader)
    requires Clean(segs, body)
    requires b <= Flat(segs) && |b| < MAX_BUFFER && CutAllowed(segs, |b|)
    requires segs == [] || b == [] || Judge(b, beyond, body) == Stop
    ensures Took(segs, b, Scan(b, beyond, body), 0)
    ensures segs == [] || |b| < 4 || segs[0].Packet?
  {
    if segs != [] && b != [] {
      JudgeSegment(segs, b, beyond, body);
    }
    assert segs[..0] == [] && segs[0..] == segs;
    if |b| < 4 {
      NothingCompleteInShort(segs, |b|, body);
    }
  }

  /** One pass of a receiver: append the new bytes to the carry-over, scan unless the buffer is
      shorter than the receiver's minimum, and keep the bytes after the final offset. */
  function Receive(r: Receiver, chunk: seq<byte>, minimum: nat, beyond: Beyond, body: BodyReader): (r': Receiver)
    requires |r.carry + chunk| < MAX_BUFFER
    ensures |r'.carry| <= |r.carry + chunk|
  {
    var b := r.carry + chunk;
    if |b| < minimum then Receiver(b, r.items)
    else
      var items := Scan(b, beyond, body);
      ScanPartition(b, beyond, body);
      Receiver(b[|Consumed(items)|..], r.items + items)
  }

  /** Byte conservation in one pass: what came in is consumed or carried over, in order. */
  lemma ReceiveConserves(r: Receiver, chunk: seq<byte>, minimum: nat, beyond: Beyond, body: BodyReader)
    requires |r.carry + chunk| < MAX_BUFFER
    ensures var r' := Receive(r, chunk, minimum, beyond, body);
      Consumed(r'.items) + r'.carry == Consumed(r.items) + (r.carry + chunk)
  {
    hide Scan, Consumed;
    var b := r.carry + chunk;
    if minimum <= |b| {
      var items := Scan(b, beyond, body);
      assert |Consumed(items)| <= |b| by {
        ScanPartition(b, beyond, body);
      }
      var rest := b[|Consumed(items)|..];
      assert b == Consumed(items) + rest by {
        ScanPartition(b, beyond, body);
      }
      ConsumedConcat(r.items, items);
      Associative(Consumed(r.items), Consumed(items), rest);
    }
  }

  /** A pass keeps the receiver in step with the stream. */
  lemma ReceiveKeepsSync(segs: seq<Segment>, k: nat, r: Receiver, chunk: seq<byte>,
                         minimum: nat, beyond: Beyond, body: BodyReader) returns (k': nat)
    requires Clean(segs, body) && Synced(segs, k, r)
    requires |r.carry + chunk| < MAX_BUFFER && minimum <= HEADER
    requires Consumed(r.items) + (r.carry + chunk) <= Flat(segs)
    requires |r.carry + chunk| < minimum || CutAllowed(segs, |Consumed(r.items) + (r.carry + chunk)|)
    ensures Synced(segs, k', Receive(r, chunk, minimum, beyond, body))
    ensures minimum <= |r.carry + chunk| ==>
      k' == |segs| || |Receive(r, chunk, minimum, beyond, body).carry| < 4 || segs[k'].Packet?
  {
    hide Scan, Complete, Flat, Packets, Consumed, Frames, Clean, CutAllowed;
    var b := r.carry + chunk;
    assert b <= Flat(segs[k..]) && (minimum <= |b| ==> CutAllowed(segs[k..], |b|)) && Clean(segs[k..], body) by {
      RestOfStream(segs, k, b, body);
    }
    if |b| < minimum {
      k' := k;
      NothingCompleteInShort(segs[k..], |b|, body);
    } else {
      k' := ScanKeepsSync(segs, k, r, b, beyond, body);
    }
  }

  lemma ScanKeepsSync(segs: seq<Segment>, k: nat, r: Receiver, b: seq<byte>, beyond: Beyond, body: BodyReader)
      returns (k': nat)
    requires Synced(segs, k, r) && |b| < MAX_BUFFER
    requires b <= Flat(segs[k..]) && CutAllowed(segs[k..], |b|) && Clean(segs[k..], body)
    ensures |Consumed(Scan(b, beyond, body))| <= |b|
    ensures Synced(segs, k', Receiver(b[|Consumed(Scan(b, beyond, body))|..], r.items + Scan(b, beyond, body)))
    ensures k' == |segs| || |b| - |Consumed(Scan(b, beyond, body))| < 4 || segs[k'].Packet?
  {
    hide Scan, Complete, Flat, Packets, Consumed, Frames, Clean, CutAllowed;
    var rest, items := segs[k..], Scan(b, beyond, body);
    var j := ScanClean(rest, b, beyond, body);
    assert |Consumed(items)| <= |b| && j <= |rest|;
    k' := k + j;
    assert k' < |segs| ==> segs[k'] == rest[j];
    SyncedFurther(segs, k, r, b, items, j);
  }

  lemma RestOfStream(segs: seq<Segment>, k: nat, b: seq<byte>, body: BodyReader)
    requires k <= |segs| && Clean(segs, body)
    requires Flat(segs[..k]) + b <= Flat(segs)
    ensures Clean(segs[k..], body) && b <= Flat(segs[k..])
    ensures CutAllowed(segs, |Flat(segs[..k]) + b|) <==> CutAllowed(segs[k..], |b|)
  {
    CleanSuffix(segs, k, body);
    SplitFlat(segs, k);
    PrefixDrop(Flat(segs[..k]), b, Flat(segs), Flat(segs[k..]));
    CutAfter(segs, k, |Flat(segs[..k]) + b|, body);
  }

  lemma DropFront<T>(b: seq<T>, front: seq<T>, rest: seq<T>)
    requires b <= front + rest && |front| <= |b|
    ensures b[|front|..] <= rest
  {
    assert rest == (front + rest)[|front|..];
  }

  lemma PrefixDrop<T>(a: seq<T>, b: seq<T>, whole: seq<T>, rest: seq<T>)
    requires a + b <= whole && whole == a + rest
    ensures b <= rest
  {
    assert b == (a + b)[|a|..] && rest == whole[|a|..];
  }

  lemma SyncedFurther(segs: seq<Segment>, k: nat, r: Receiver, b: seq<byte>, items: seq<Item>, j: nat)
    requires Synced(segs, k, r) && b <= Flat(segs[k..])
    requires Took(segs[k..], b, items, j)
    ensures Synced(segs, k + j, Receiver(b[|Consumed(items)|..], r.items + items))
  {
    hide Complete, Flat, Packets, Consumed, Frames;
    var rest := segs[k..];
    assert segs[..k + j] == segs[..k] + rest[..j] && segs[k + j..] == rest[j..];
    FlatConcat(segs[..k], rest[..j]);
    ConsumedConcat(r.items, items);
    SplitFlat(rest, j);
    DropFront(b, Flat(rest[..j]), Flat(rest[j..]));
  }

  lemma SplitFlat(segs: seq<Segment>, k: nat)
    requires k <= |segs|
    ensures Flat(segs) == Flat(segs[..k]) + Flat(segs[k..])
  {
    assert segs == segs[..k] + segs[k..];
    FlatConcat(segs[..k], segs[k..]);
  }

  /** The receiver delivered exactly the complete frames of the first t bytes, once each and in order,
      and keeps an incomplete last frame whole. Nothing here mentions the division into passes. */
  ghost predicate Faithful(segs: seq<Segment>, t: nat, r: Receiver) {
    Frames(r.items) == Complete(segs, t) && EndsWith(r.carry, Partial(segs, t))
  }

  /** What being in step after t bytes means. */
  lemma SyncedMeaning(segs: seq<Segment>, k: nat, r: Receiver, t: nat, body: BodyReader)
    requires Clean(segs, body) && Synced(segs, k, r) && t == |Consumed(r.items)| + |r.carry|
    ensures Faithful(segs, t, r)
    ensures k == |segs| || segs[k].Packet? ==> r.carry == Partial(segs, t)
  {
    hide Complete, Partial, Flat, Packets, Consumed, Frames, Clean, Raw;
    var rest := segs[k..];
    assert Complete(segs, t) == Packets(segs[..k]) by {
      CompleteAfter(segs, k, t);
    }
    assert Partial(segs, t) == Partial(rest, |r.carry|) by {
      PartialAfter(segs, k, t);
    }
    PartialAtEnd(rest, r.carry);
  }

  predicate EndsWith(s: seq<byte>, end: seq<byte>) {
    |end| <= |s| && s[|s| - |end|..] == end
  }

  lemma EndOfSuffix(b: seq<byte>, n: nat, end: seq<byte>)
    requires n <= |b| && EndsWith(b[n..], end)
    ensures EndsWith(b, end)
  {
    assert b[|b| - |end|..] == b[n..][|b| - n - |end|..];
  }

  lemma {:induction false} PartialAtEnd(segs: seq<Segment>, b: seq<byte>)
    requires b <= Flat(segs) && Complete(segs, |b|) == []
    ensures EndsWith(b, Partial(segs, |b|))
    ensures (segs == [] || segs[0].Packet?) ==> b == Partial(segs, |b|)
  {
    if segs != [] && |Raw(segs[0])| <= |b| {
      var b' := b[|Raw(segs[0])|..];
      DropFront(b, Raw(segs[0]), Flat(segs[1..]));
      PartialAtEnd(segs[1..], b');
      EndOfSuffix(b, |Raw(segs[0])|, Partial(segs[1..], |b'|));
    } else if segs != [] {
      assert b == Raw(segs[0])[..|b|];
    }
  }

  function Posted(chunks: seq<seq<byte>>): seq<byte> {
    if chunks == [] then [] else Posted(chunks[..|chunks| - 1]) + chunks[|chunks| - 1]
  }

  /** The state after a run of passes, from nothing. Each pass finds one chunk staged; memory(i) is
      what pass i sees past the end of its buffer. */
  function RunPasses(chunks: seq<seq<byte>>, memory: nat -> Beyond, minimum: nat, body: BodyReader): Receiver
    requires Fits(chunks, memory, minimum, body)
    decreases |chunks|, 1
  {
    if chunks == [] then Receiver([], [])
    else
      var last := |chunks| - 1;
      Receive(RunPasses(chunks[..last], memory, minimum, body), chunks[last], minimum, memory(last), body)
  }

  /** No buffer of the run reaches 2^31 bytes. */
  predicate Fits(chunks: seq<seq<byte>>, memory: nat -> Beyond, minimum: nat, body: BodyReader)
    decreases |chunks|, 0
  {
    chunks == []
    || (var last := |chunks| - 1;
        && Fits(chunks[..last], memory, minimum, body)
        && |RunPasses(chunks[..last], memory, minimum, body).carry + chunks[last]| < MAX_BUFFER)
  }

  /** Byte conservation over a whole run. */
  lemma {:induction false} RunConserves(chunks: seq<seq<byte>>, memory: nat -> Beyond, minimum: nat, body: BodyReader)
    requires Fits(chunks, memory, minimum, body)
    ensures var r := RunPasses(chunks, memory, minimum, body); Consumed(r.items) + r.carry == Posted(chunks)
  {
    if chunks != [] {
      var last := |chunks| - 1;
      var r0 := RunPasses(chunks[..last], memory, minimum, body);
      RunConserves(chunks[..last], memory, minimum, body);
      ReceiveConserves(r0, chunks[last], minimum, memory(last), body);
      Associative(Consumed(r0.items), r0.carry, chunks[last]);
    }
  }

  /** No pass ends one to three bytes into a frame. */
  predicate CutsAllowed(segs: seq<Segment>, chunks: seq<seq<byte>>) {
    chunks == [] || (CutAllowed(segs, |Posted(chunks)|) && CutsAllowed(segs, chunks[..|chunks| - 1]))
  }

  /** No pass that scans ends one to three bytes into a frame. A receiver that waits for a minimum does not
      scan a shorter buffer, so such a pass may end anywhere. */
  predicate ScansAllowed(segs: seq<Segment>, chunks: seq<seq<byte>>, memory: nat -> Beyond, minimum: nat,
                         body: BodyReader)
    requires Fits(chunks, memory, minimum, body)
    decreases |chunks|
  {
    chunks == []
    || (var last := |chunks| - 1;
        && (|RunPasses(chunks[..last], memory, minimum, body).carry + chunks[last]| < minimum
            || CutAllowed(segs, |Posted(chunks)|))
        && ScansAllowed(segs, chunks[..last], memory, minimum, body))
  }

  /** Without a minimum every pass scans. */
  lemma {:induction false} CutsAndScans(segs: seq<Segment>, chunks: seq<seq<byte>>, memory: nat -> Beyond,
                                        minimum: nat, body: BodyReader)
    requires Fits(chunks, memory, minimum, body)
    ensures CutsAllowed(segs, chunks) ==> ScansAllowed(segs, chunks, memory, minimum, body)
    ensures minimum == 0 && ScansAllowed(segs, chunks, memory, minimum, body) ==> CutsAllowed(segs, chunks)
    decreases |chunks|
  {
    if chunks != [] {
      hide RunPasses, CutAllowed;
      CutsAndScans(segs, chunks[..|chunks| - 1], memory, minimum, body);
    }
  }

  lemma StartsSynced(segs: seq<Segment>, body: BodyReader)
    requires Clean(segs, body)
    ensures Synced(segs, 0, Receiver([], []))
  {
    assert segs[..0] == [] && segs[0..] == segs;
    NothingCompleteInShort(segs, 0, body);
  }

  lemma {:induction false} RunStaysInSync(segs: seq<Segment>, chunks: seq<seq<byte>>, memory: nat -> Beyond,
                                          minimum: nat, body: BodyReader) returns (k: nat)
    requires Clean(segs, body) && minimum <= HEADER
    requires Fits(chunks, memory, minimum, body) && Posted(chunks) <= Flat(segs)
    requires ScansAllowed(segs, chunks, memory, minimum, body)
    ensures Synced(segs, k, RunPasses(chunks, memory, minimum, body))
    ensures minimum == 0 ==> k == |segs| || |RunPasses(chunks, memory, minimum, body).carry| < 4 || segs[k].Packet?
    decreases |chunks|
  {
    hide Scan, Complete, Packets, Consumed, Frames, Clean, CutAllowed, Receive;
    if chunks == [] {
      k := 0;
      StartsSynced(segs, body);
    } else {
      var last := |chunks| - 1;
      var r0 := RunPasses(chunks[..last], memory, minimum, body);
      var k0 := RunStaysInSync(segs, chunks[..last], memory, minimum, body);
      RunConserves(chunks[..last], memory, minimum, body);
      Associative(Consumed(r0.items), r0.carry, chunks[last]);
      k := ReceiveKeepsSync(segs, k0, r0, chunks[last], minimum, memory(last), body);
    }
  }

  /** Chunking independence, for every division of the stream and every content of memory, the client
      with its minimum included. The server scans every buffer (minimum 0) and keeps at most three bytes
      besides the incomplete frame. */
  lemma ChunkingIndependence(segs: seq<Segment>, chunks: seq<seq<byte>>, memory: nat -> Beyond, minimum: nat,
                             body: BodyReader)
    requires Clean(segs, body) && minimum <= HEADER
    requires Fits(chunks, memory, minimum, body) && Posted(chunks) <= Flat(segs)
    requires ScansAllowed(segs, chunks, memory, minimum, body)
    ensures Faithful(segs, |Posted(chunks)|, RunPasses(chunks, memory, minimum, body))
    ensures var carry := RunPasses(chunks, memory, minimum, body).carry;
      minimum == 0 && 4 <= |carry| ==> carry == Partial(segs, |Posted(chunks)|)
  {
    var k := RunStaysInSync(segs, chunks, memory, minimum, body);
    hide Complete, Partial, Flat, Packets, Consumed, Frames, Clean, RunPasses, Posted, ScansAllowed, EndsWith;
    RunConserves(chunks, memory, minimum, body);
    SyncedMeaning(segs, k, RunPasses(chunks, memory, minimum, body), |Posted(chunks)|, body);
  }

  ghost predicate AlwaysFits(chunks: seq<seq<byte>>, minimum: nat, body: BodyReader) {
    forall memory: nat -> Beyond :: Fits(chunks, memory, minimum, body)
  }

  lemma AlwaysFitsBefore(chunks: seq<seq<byte>>, minimum: nat, body: BodyReader)
    requires AlwaysFits(chunks, minimum, body) && chunks != []
    ensures AlwaysFits(chunks[..|chunks| - 1], minimum, body)
  {
    var before := chunks[..|chunks| - 1];
    forall memory: nat -> Beyond ensures Fits(before, memory, minimum, body) {
      assert Fits(chunks, memory, minimum, body);
    }
  }

  /** The receiver is faithful after every pass, whatever lies past its buffers. */
  ghost predicate AlwaysFaithful(segs: seq<Segment>, chunks: seq<seq<byte>>, minimum: nat, body: BodyReader)
    requires AlwaysFits(chunks, minimum, body)
    decreases |chunks|
  {
    && (forall memory: nat -> Beyond :: Faithful(segs, |Posted(chunks)|, RunPasses(chunks, memory, minimum, body)))
    && (chunks != [] ==> AlwaysFits(chunks[..|chunks| - 1], minimum, body)
                         && AlwaysFaithful(segs, chunks[..|chunks| - 1], minimum, body))
  }

  ghost predicate AlwaysAllowed(segs: seq<Segment>, chunks: seq<seq<byte>>, minimum: nat, body: BodyReader)
    requires AlwaysFits(chunks, minimum, body)
  {
    forall memory: nat -> Beyond :: ScansAllowed(segs, chunks, memory, minimum, body)
  }

  function Zero(): Beyond {
    (left: nat, j: nat) => 0
  }

  lemma {:induction false} SkipsAll(b: seq<byte>, body: BodyReader)
    requires |b| <= 3
    ensures Consumed(Scan(b, Zero(), body)) == b
  {
    if b != [] {
      assert Look(b, 0, 4, Zero())[3] == 0;
      SkipsAll(b[1..], body);
      ConsumedCons(Skipped(b[0]), Scan(b[1..], Zero(), body));
    }
  }

  /** As JudgeSegment, at the segments before the cut. */
  lemma JudgeBeforeBadCut(segs: seq<Segment>, b: seq<byte>, body: BodyReader)
    requires segs != [] && Clean(segs, body) && b <= Flat(segs) && |Raw(segs[0])| <= |b| < MAX_BUFFER
    ensures |b| > 0
    ensures var v := Judge(b, Zero(), body); v != Stop && Size(v) == |Raw(segs[0])|
  {
    match segs[0]
    case Garbage(_) =>
      JudgeNoMagic(b, Zero(), body);
      if |b| < 4 {
        assert Look(b, 0, 4, Zero())[3] == 0;
      }
    case Packet(f) =>
      assert b[..|f|] == f;
      JudgeFrame(b, Zero(), body, |f|);
  }

  /** A pass that ends inside a magic word can throw its first bytes away: it does when zeros follow. */
  lemma {:induction false} BadCutLosesBytes(segs: seq<Segment>, b: seq<byte>, body: BodyReader)
    requires Clean(segs, body)
    requires b <= Flat(segs) && |b| < MAX_BUFFER && !CutAllowed(segs, |b|)
    ensures |Consumed(Scan(b, Zero(), body))| == |b|
    ensures Partial(segs, |b|) != []
    decreases |segs|
  {
    if |b| < |Raw(segs[0])| {
      SkipsAll(b, body);
    } else {
      JudgeBeforeBadCut(segs, b, body);
      var v := Judge(b, Zero(), body);
      var b' := b[Size(v)..];
      DropFront(b, Raw(segs[0]), Flat(segs[1..]));
      BadCutLosesBytes(segs[1..], b', body);
      ConsumedCons(Take(b, v), Scan(b', Zero(), body));
    }
  }

  lemma ReceiveAtBadCut(segs: seq<Segment>, k: nat, r: Receiver, chunk: seq<byte>, minimum: nat, body: BodyReader)
    requires Clean(segs, body) && Synced(segs, k, r) && minimum <= |r.carry + chunk| < MAX_BUFFER
    requires Consumed(r.items) + (r.carry + chunk) <= Flat(segs)
    requires !CutAllowed(segs, |Consumed(r.items) + (r.carry + chunk)|)
    ensures Receive(r, chunk, minimum, Zero(), body).carry == []
    ensures Partial(segs, |Consumed(r.items) + (r.carry + chunk)|) != []
  {
    var b := r.carry + chunk;
    assert b <= Flat(segs[k..]) && !CutAllowed(segs[k..], |b|) && Clean(segs[k..], body) by {
      RestOfStream(segs, k, b, body);
    }
    BadCutLosesBytes(segs[k..], b, body);
    PartialAfter(segs, k, |Flat(segs[..k]) + b|);
  }

  /** After passes that end well for some memory, a scan that does not loses bytes for memory that is the
      same up to there. */
  lemma BadCutIsUnfaithful(segs: seq<Segment>, chunks: seq<seq<byte>>, memory: nat -> Beyond, minimum: nat,
                           body: BodyReader)
    requires Clean(segs, body) && chunks != [] && minimum <= HEADER
    requires AlwaysFits(chunks, minimum, body) && Posted(chunks) <= Flat(segs)
    requires AlwaysFits(chunks[..|chunks| - 1], minimum, body)
    requires ScansAllowed(segs, chunks[..|chunks| - 1], memory, minimum, body)
    requires minimum <= |RunPasses(chunks[..|chunks| - 1], memory, minimum, body).carry + chunks[|chunks| - 1]|
    requires !CutAllowed(segs, |Posted(chunks)|)
    ensures !AlwaysFaithful(segs, chunks, minimum, body)
  {
    var last := |chunks| - 1;
    var zeros: nat -> Beyond := (i: nat) => if i < last then memory(i) else Zero();
    assert Fits(chunks, zeros, minimum, body) && zeros(last) == Zero();
    RunMemory(chunks[..last], memory, zeros, minimum, body);
    var r0 := RunPasses(chunks[..last], memory, minimum, body);
    var k := RunStaysInSync(segs, chunks[..last], memory, minimum, body);
    RunConserves(chunks[..last], memory, minimum, body);
    Associative(Consumed(r0.items), r0.carry, chunks[last]);
    ReceiveAtBadCut(segs, k, r0, chunks[last], minimum, body);
    assert !Faithful(segs, |Posted(chunks)|, RunPasses(chunks, zeros, minimum, body));
  }

  /** The exact condition for any receiver: it is faithful to a clean stream after every pass, for every
      content of the memory after its buffers, if and only if no pass that scans ends one to three bytes
      into a frame. */
  lemma {:induction false} FaithfulExactlyWhenScansAllowed(segs: seq<Segment>, chunks: seq<seq<byte>>, minimum: nat,
                                                           body: BodyReader)
    requires Clean(segs, body) && minimum <= HEADER
    requires AlwaysFits(chunks, minimum, body) && Posted(chunks) <= Flat(segs)
    ensures AlwaysFaithful(segs, chunks, minimum, body) <==> AlwaysAllowed(segs, chunks, minimum, body)
    decreases |chunks|
  {
    hide Faithful, RunPasses, CutAllowed, Clean, Flat;
    if chunks != [] {
      AlwaysFitsBefore(chunks, minimum, body);
      assert Posted(chunks[..|chunks| - 1]) <= Posted(chunks);
      FaithfulExactlyWhenScansAllowed(segs, chunks[..|chunks| - 1], minimum, body);
    }
    forall memory: nat -> Beyond | AlwaysFaithful(segs, chunks, minimum, body)
      ensures ScansAllowed(segs, chunks, memory, minimum, body)
    {
      FaithfulNeedsAllowed(segs, chunks, memory, minimum, body);
    }
    if AlwaysAllowed(segs, chunks, minimum, body) {
      forall memory: nat -> Beyond ensures Faithful(segs, |Posted(chunks)|, RunPasses(chunks, memory, minimum, body)) {
        assert ScansAllowed(segs, chunks, memory, minimum, body);
        ChunkingIndependence(segs, chunks, memory, minimum, body);
      }
      if chunks != [] {
        AllowedBefore(segs, chunks, minimum, body);
      }
    }
  }

  lemma FaithfulNeedsAllowed(segs: seq<Segment>, chunks: seq<seq<byte>>, memory: nat -> Beyond, minimum: nat,
                             body: BodyReader)
    requires Clean(segs, body) && minimum <= HEADER
    requires AlwaysFits(chunks, minimum, body) && Posted(chunks) <= Flat(segs)
    requires AlwaysFaithful(segs, chunks, minimum, body)
    requires chunks != [] ==> AlwaysFits(chunks[..|chunks| - 1], minimum, body)
                              && AlwaysAllowed(segs, chunks[..|chunks| - 1], minimum, body)
    ensures ScansAllowed(segs, chunks, memory, minimum, body)
  {
    if chunks != [] && !ScansAllowed(segs, chunks, memory, minimum, body) {
      assert ScansAllowed(segs, chunks[..|chunks| - 1], memory, minimum, body);
      BadCutIsUnfaithful(segs, chunks, memory, minimum, body);
    }
  }

  lemma AllowedBefore(segs: seq<Segment>, chunks: seq<seq<byte>>, minimum: nat, body: BodyReader)
    requires chunks != [] && AlwaysFits(chunks, minimum, body) && AlwaysFits(chunks[..|chunks| - 1], minimum, body)
    requires AlwaysAllowed(segs, chunks, minimum, body)
    ensures AlwaysAllowed(segs, chunks[..|chunks| - 1], minimum, body)
  {
    var before := chunks[..|chunks| - 1];
    forall memory: nat -> Beyond ensures ScansAllowed(segs, before, memory, minimum, body) {
      assert ScansAllowed(segs, chunks, memory, minimum, body);
    }
  }

  /** For the server, which scans in every pass, the condition is one on the division of the stream alone. */
  lemma FaithfulExactlyWhenCutsAllowed(segs: seq<Segment>, chunks: seq<seq<byte>>, body: BodyReader)
    requires Clean(segs, body)
    requires AlwaysFits(chunks, 0, body) && Posted(chunks) <= Flat(segs)
    ensures AlwaysFaithful(segs, chunks, 0, body) <==> CutsAllowed(segs, chunks)
  {
    hide AlwaysFaithful, CutsAllowed, ScansAllowed, Clean, Posted, Flat;
    FaithfulExactlyWhenScansAllowed(segs, chunks, 0, body);
    forall memory: nat -> Beyond ensures ScansAllowed(segs, chunks, memory, 0, body) <==> CutsAllowed(segs, chunks) {
      CutsAndScans(segs, chunks, memory, 0, body);
    }
    var memory: nat -> Beyond := (i: nat) => Zero();
    assert AlwaysAllowed(segs, chunks, 0, body) ==> ScansAllowed(segs, chunks, memory, 0, body);
  }

  /** A run looks only at the memory of its own passes. */
  lemma {:induction false} RunMemory(chunks: seq<seq<byte>>, m: nat -> Beyond, m': nat -> Beyond, minimum: nat,
                                     body: BodyReader)
    requires forall i :: 0 <= i < |chunks| ==> m(i) == m'(i)
    ensures Fits(chunks, m, minimum, body) <==> Fits(chunks, m', minimum, body)
    ensures Fits(chunks, m, minimum, body) ==>
      RunPasses(chunks, m, minimum, body) == RunPasses(chunks, m', minimum, body)
  {
    if chunks != [] {
      RunMemory(chunks[..|chunks| - 1], m, m', minimum, body);
    }
  }
}
