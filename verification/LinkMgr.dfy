/** The receivers themselves: the server's link manager and the single-link client. */
module LinkManagers {
  import opened Bytes
  import opened Framing
  import opened FramingStream
  import opened ReceivePipeline
  import opened ClientPipeline

  /** Keys in the order std::map iterates them. */
  predicate Ascending(keys: seq<Handle>) {
    forall i, j :: 0 <= i < j < |keys| ==> keys[i] < keys[j]
  }

  /** The handler's part of a schedule: one scan per swapped-out link, in the given order. */
  function Scans(keys: seq<Handle>, memory: Handle -> Beyond): seq<Label> {
    seq(|keys|, i requires 0 <= i < |keys| => Process(keys[i], memory(keys[i])))
  }

  lemma Least(s: set<Handle>) returns (m: Handle)
    requires s != {}
    ensures m in s && forall k :: k in s ==> m <= k
  {
    m :| m in s;
    if s != {m} {
      var rest := s - {m};
      var m' := Least(rest);
      assert forall k :: k in s ==> k == m || k in rest;
      m := if m < m' then m else m';
    }
  }

  /** The handler's phase with some links of its batch still to do. */
  ghost function Remaining(batch: map<Handle, seq<byte>>, todo: set<Handle>): Handler
    requires todo <= batch.Keys
  {
    if todo == {} then Waiting else Working(map h | h in todo :: batch[h])
  }

  lemma RunTwo(s: State, a: Label, b: Label, body: BodyReader)
    requires Enabled(s, a) && Enabled(Step(s, a, body), b)
    ensures Legal(s, [a, b], body) && Run(s, [a, b], body) == Step(Step(s, a, body), b, body)
  {
    hide Enabled, Step;
    var s1 := Step(s, a, body);
    assert [a, b][1..] == [b] && [b][1..] == [];
    assert Legal(s1, [b], body) && Run(s1, [b], body) == Step(s1, b, body);
  }

  lemma RunOneMore(s: State, ls: seq<Label>, l: Label, mid: State, body: BodyReader)
    requires Legal(s, ls, body) && Run(s, ls, body) == mid && Enabled(mid, l)
    ensures Legal(s, ls + [l], body) && Run(s, ls + [l], body) == Step(mid, l, body)
  {
    hide Enabled, Step;
    RunConcat(s, ls, [l], body);
    assert [l][1..] == [];
  }

  class LinkMgr {
    var recvBufOld: map<Handle, seq<byte>>
    var recvBuf: map<Handle, seq<byte>>
    var buffSem: nat
    /** The callbacks made and the bytes skipped, per link. */
    var done: map<Handle, seq<Item>>
    ghost var posted: map<Handle, seq<byte>>
    const body: BodyReader

    constructor (body: BodyReader)
      ensures View() == INIT && this.body == body
    {
      recvBufOld, recvBuf, buffSem, done, posted := map[], map[], 0, map[], map[];
      this.body := body;
    }

    /** The shared state while no thread is inside a method. */
    ghost function View(): State
      reads this
    {
      State(recvBufOld, buffSem, {}, Waiting, recvBuf, done, posted)
    }

    method DoPostRecvBuff(h: Handle, data: seq<byte>, ghost poster: Poster) returns (ghost steps: seq<Label>)
      modifies this
      ensures steps == if data == [] then [] else [Append(poster, h, data), Post(poster)]
      ensures data == [] ==> View() == old(View())
      ensures data != [] ==>
        && buffSem == old(buffSem) + 1 && recvBuf == old(recvBuf) && done == old(done)
        && recvBufOld == old(recvBufOld)[h := (if h in old(recvBufOld) then old(recvBufOld)[h] else []) + data]
      ensures Legal(old(View()), steps, body) && View() == Run(old(View()), steps, body)
    {
      steps := [];
      if data == [] {
        return;
      }
      if h in recvBufOld {
        recvBufOld := recvBufOld[h := recvBufOld[h] + data];
      } else {
        recvBufOld := recvBufOld[h := data];
        assert [] + data == data;
      }
      posted := posted[h := Get(posted, h) + data];
      buffSem := buffSem + 1;
      steps := [Append(poster, h, data), Post(poster)];
      RunTwo(old(View()), Append(poster, h, data), Post(poster), body);
      assert View().owing == {poster} - {poster};
    }

    /** The part of a pass that handles one link: append to its carry-over, scan, keep the rest. */
    method ReceiveLink(h: Handle, chunk: seq<byte>, beyond: Beyond)
      requires |Get(recvBuf, h) + chunk| < MAX_BUFFER
      modifies this`recvBuf, this`done
      ensures var r := Receive(old(View().ReceiverOf(h)), chunk, 0, beyond, body);
        recvBuf == old(recvBuf)[h := r.carry] && done == old(done)[h := r.items]
    {
      hide Scan, Consumed;
      var buf := if h in recvBuf then recvBuf[h] + chunk else chunk;
      assert buf == Get(recvBuf, h) + chunk;
      var items, dataOffset := ScanBuffer(buf, beyond, body);
      if dataOffset > 0 {
        recvBuf := recvBuf[h := buf[dataOffset..]];
      } else {
        recvBuf := recvBuf[h := buf];
        assert buf[0..] == buf;
      }
      done := done[h := Get(done, h) + items];
    }

    /** One turn of handle_recv_buff after a successful wait. */
    method HandleRecvBuff(memory: Handle -> Beyond) returns (ghost keys: seq<Handle>, ghost steps: seq<Label>)
      requires buffSem > 0
      requires forall h :: h in recvBufOld ==> |Get(recvBuf, h) + recvBufOld[h]| < MAX_BUFFER
      modifies this
      ensures Ascending(keys) && (forall h :: h in keys <==> h in old(recvBufOld))
      ensures steps == [Wait, Swap] + Scans(keys, memory) && recvBufOld == map[] && buffSem == old(buffSem) - 1
      ensures Legal(old(View()), steps, body) && View() == Run(old(View()), steps, body)
    {
      hide HalfPass, Receive, Run, Legal, Scans;
      buffSem := buffSem - 1;
      var batch := recvBufOld;
      recvBufOld := map[];
      keys := [];
      PassStarts(old(View()), memory, body);
      var todo := batch.Keys;
      while todo != {}
        invariant todo <= batch.Keys && recvBufOld == map[] && buffSem == old(buffSem) - 1
        invariant HalfPass(old(View()), View(), batch, todo, keys, memory, body)
        invariant forall h :: h in todo ==> |Get(recvBuf, h) + batch[h]| < MAX_BUFFER
        decreases |todo|
      {
        ghost var least := Least(todo);
        var h :| h in todo && forall k :: k in todo ==> h <= k;
        ghost var before := View();
        ReceiveLink(h, batch[h], memory(h));
        PassGoesOn(old(View()), before, View(), batch, todo, keys, h, memory, body);
        todo, keys := todo - {h}, keys + [h];
      }
      steps := [Wait, Swap] + Scans(keys, memory);
      PassEnds(old(View()), View(), batch, todo, keys, memory, body);
    }
  }

  /** A pass after the links in keys, with those in todo still to come, as a run of the system:
      now is the state of the object, in which the handler's own progress does not show. */
  ghost predicate HalfPass(start: State, now: State, batch: map<Handle, seq<byte>>, todo: set<Handle>,
                           keys: seq<Handle>, memory: Handle -> Beyond, body: BodyReader)
  {
    var steps := [Wait, Swap] + Scans(keys, memory);
    && todo <= batch.Keys
    && Ascending(keys) && (forall h :: h in batch <==> h in keys || h in todo)
    && (forall i, h :: 0 <= i < |keys| && h in todo ==> keys[i] < h)
    && Legal(start, steps, body)
    && Run(start, steps, body) == now.(handler := Remaining(batch, todo))
  }

  lemma PassStarts(s: State, memory: Handle -> Beyond, body: BodyReader)
    requires s.handler == Waiting && s.semaphore > 0
    ensures HalfPass(s, s.(semaphore := s.semaphore - 1, staging := map[]), s.staging, s.staging.Keys, [], memory, body)
  {
    RunTwo(s, Wait, Swap, body);
    assert [Wait, Swap] + Scans([], memory) == [Wait, Swap];
    assert s.staging != map[] ==> s.staging.Keys != {} && s.staging == Remaining(s.staging, s.staging.Keys).batch;
  }

  lemma PassGoesOn(start: State, now: State, next: State, batch: map<Handle, seq<byte>>, todo: set<Handle>,
                   keys: seq<Handle>, h: Handle, memory: Handle -> Beyond, body: BodyReader)
    requires HalfPass(start, now, batch, todo, keys, memory, body)
    requires h in todo && (forall k :: k in todo ==> h <= k) && |Get(now.carry, h) + batch[h]| < MAX_BUFFER
    requires var r := Receive(now.ReceiverOf(h), batch[h], 0, memory(h), body);
      next == now.(carry := now.carry[h := r.carry], done := now.done[h := r.items])
    ensures HalfPass(start, next, batch, todo - {h}, keys + [h], memory, body)
  {
    hide Receive, Run, Legal, Step, Enabled;
    var mid := now.(handler := Remaining(batch, todo));
    var steps := [Wait, Swap] + Scans(keys, memory);
    StepProcess(mid, batch, todo, h, memory(h), body);
    RunOneMore(start, steps, Process(h, memory(h)), mid, body);
    assert [Wait, Swap] + Scans(keys + [h], memory) == steps + [Process(h, memory(h))];
  }

  lemma PassEnds(start: State, now: State, batch: map<Handle, seq<byte>>, todo: set<Handle>,
                 keys: seq<Handle>, memory: Handle -> Beyond, body: BodyReader)
    requires HalfPass(start, now, batch, todo, keys, memory, body) && todo == {} && now.handler == Waiting
    ensures var steps := [Wait, Swap] + Scans(keys, memory);
      Legal(start, steps, body) && Run(start, steps, body) == now
    ensures Ascending(keys) && forall h :: h in keys <==> h in batch
  {
    assert now.(handler := Remaining(batch, {})) == now;
  }

  lemma StepProcess(s: State, batch: map<Handle, seq<byte>>, todo: set<Handle>, h: Handle, beyond: Beyond,
                    body: BodyReader)
    requires h in todo && todo <= batch.Keys && s.handler == Remaining(batch, todo)
    requires |Get(s.carry, h) + batch[h]| < MAX_BUFFER
    ensures Enabled(s, Process(h, beyond))
    ensures var r := Receive(s.ReceiverOf(h), batch[h], 0, beyond, body);
      Step(s, Process(h, beyond), body)
      == s.(handler := Remaining(batch, todo - {h}), carry := s.carry[h := r.carry], done := s.done[h := r.items])
  {
    hide Receive;
    var left, rest := s.handler.batch - {h}, todo - {h};
    assert left.Keys == rest;
    if rest == {} {
      assert left == map[];
    } else {
      assert left == Remaining(batch, rest).batch;
    }
  }

  /** The client: one link, so plain buffers instead of maps, and no scan below a header's length. */
  class TestClient {
    const tcpLink: Handle
    const body: BodyReader
    var recvBufOld: seq<byte>
    var recvBuf: seq<byte>
    var buffSem: nat
    var done: seq<Item>
    ghost var posted: seq<byte>
    /** What each pass found staged, and the memory it saw. */
    ghost var chunks: seq<seq<byte>>
    ghost var memory: seq<Beyond>

    /** The shared state while no thread is inside a method. */
    ghost function View(): ClientState
      reads this
    {
      ClientState(recvBufOld, buffSem, {}, ClientWaiting, Receiver(recvBuf, done), posted, chunks, memory)
    }

    ghost predicate Valid()
      reads this
    {
      ClientSound(View(), body)
    }

    constructor (tcpLink: Handle, body: BodyReader)
      ensures Valid() && View() == CLIENT_INIT && this.tcpLink == tcpLink && this.body == body
    {
      this.tcpLink, this.body := tcpLink, body;
      recvBufOld, recvBuf, buffSem, done, posted, chunks, memory := [], [], 0, [], [], [], [];
    }

    method DoPostRecvBuff(h: Handle, data: seq<byte>, ghost poster: Poster) returns (ghost steps: seq<ClientLabel>)
      requires Valid()
      modifies this
      ensures steps == if h == tcpLink then [Stage(poster, data), Raise(poster)] else []
      ensures h != tcpLink ==> View() == old(View())
      ensures h == tcpLink ==>
        && recvBufOld == old(recvBufOld) + data && buffSem == old(buffSem) + 1
        && recvBuf == old(recvBuf) && done == old(done)
      ensures Valid() && ClientLegal(old(View()), steps, body) && View() == ClientRun(old(View()), steps, body)
    {
      steps := [];
      if h != tcpLink {
        return;
      }
      recvBufOld := recvBufOld + data;
      posted := posted + data;
      buffSem := buffSem + 1;
      steps := [Stage(poster, data), Raise(poster)];
      PostRuns(old(View()), poster, data, body);
      ClientRunSound(old(View()), steps, body);
    }

    /** One turn of handle_recv_data after a successful wait. */
    method HandleRecvData(beyond: Beyond) returns (ghost steps: seq<ClientLabel>)
      requires Valid() && buffSem > 0 && |recvBuf + recvBufOld| < MAX_BUFFER
      modifies this
      ensures steps == if old(recvBufOld) == [] then [WakeUp, Take] else [WakeUp, Take, Pass(beyond)]
      ensures recvBufOld == [] && buffSem == old(buffSem) - 1
      ensures Receiver(recvBuf, done)
           == if old(recvBufOld) == [] then Receiver(old(recvBuf), old(done))
              else Receive(Receiver(old(recvBuf), old(done)), old(recvBufOld), HEADER, beyond, body)
      ensures Valid() && ClientLegal(old(View()), steps, body) && View() == ClientRun(old(View()), steps, body)
    {
      hide Scan, Consumed, ClientSound;
      buffSem := buffSem - 1;
      var chunk := recvBufOld;
      recvBufOld := [];
      TurnRuns(old(View()), beyond, body);
      steps := [WakeUp, Take];
      if chunk != [] {
        steps := [WakeUp, Take, Pass(beyond)];
        recvBuf := recvBuf + chunk;
        if HEADER <= |recvBuf| {
          var items, dataOffset := ScanBuffer(recvBuf, beyond, body);
          if dataOffset > 0 {
            recvBuf := recvBuf[dataOffset..];
          } else {
            assert recvBuf[0..] == recvBuf;
          }
          done := done + items;
        }
        chunks, memory := chunks + [chunk], memory + [beyond];
      }
      ClientRunSound(old(View()), steps, body);
    }

    /** Chunking independence for the client: its state after any posts and turns, provided no turn that
        scanned ended one to three bytes into a frame. */
    lemma ClientIsFaithful(segs: seq<Segment>)
      requires Valid() && Clean(segs, body)
      requires Posted(chunks) <= Flat(segs) && ScansAllowed(segs, chunks, Memory(memory), HEADER, body)
      ensures Faithful(segs, |Posted(chunks)|, Receiver(recvBuf, done))
    {
      ChunkingIndependence(segs, chunks, Memory(memory), HEADER, body);
    }
  }

  lemma PostRuns(s: ClientState, p: Poster, data: seq<byte>, body: BodyReader)
    requires s.owing == {}
    ensures var ls := [Stage(p, data), Raise(p)];
      && ClientLegal(s, ls, body)
      && ClientRun(s, ls, body)
         == s.(staging := s.staging + data, posted := s.posted + data, semaphore := s.semaphore + 1)
  {
    var s1 := ClientStep(s, Stage(p, data), body);
    var s2 := ClientStep(s1, Raise(p), body);
    assert s2.owing == {};
    ClientRunFirst(s1, Raise(p), [], body);
    ClientRunFirst(s, Stage(p, data), [Raise(p)], body);
    assert [Stage(p, data)] + [Raise(p)] == [Stage(p, data), Raise(p)];
  }

  /** A turn of the handler, with no thread in between. */
  lemma TurnRuns(s: ClientState, beyond: Beyond, body: BodyReader)
    requires s.handler.ClientWaiting? && s.semaphore > 0 && |s.receiver.carry + s.staging| < MAX_BUFFER
    ensures var ls, s1 := [WakeUp, Take], s.(semaphore := s.semaphore - 1, staging := []);
      if s.staging == [] then ClientLegal(s, ls, body) && ClientRun(s, ls, body) == s1
      else
        && ClientLegal(s, ls + [Pass(beyond)], body)
        && ClientRun(s, ls + [Pass(beyond)], body)
           == s1.(receiver := Receive(s.receiver, s.staging, HEADER, beyond, body),
                  chunks := s.chunks + [s.staging], memory := s.memory + [beyond])
  {
    hide Receive;
    var rest := if s.staging == [] then [] else [Pass(beyond)];
    var s1 := ClientStep(s, WakeUp, body);
    var s2 := ClientStep(s1, Take, body);
    if s.staging != [] {
      ClientRunFirst(s2, Pass(beyond), [], body);
    }
    ClientRunFirst(s1, Take, rest, body);
    ClientRunFirst(s, WakeUp, [Take] + rest, body);
    assert [WakeUp] + ([Take] + rest) == [WakeUp, Take] + rest;
  }
}
