/**
 The client's receive pipeline: any number of threads post bytes of its one link, one handler thread takes
 them in passes. One label per locked or atomic step. Posting nothing raises the semaphore too, and a pass
 that finds fewer bytes than a header does not scan.
 */
module ClientPipeline {
  import opened Bytes
  import opened Framing
  import opened FramingStream
  import opened ReceivePipeline

  datatype ClientHandler = ClientWaiting | ClientWoken | Holding(batch: seq<byte>)

  /** The code's state, then histories: what was posted, and what each pass found and saw in memory. */
  datatype ClientState = ClientState(
    staging: seq<byte>, semaphore: nat, owing: set<Poster>, handler: ClientHandler, receiver: Receiver,
    posted: seq<byte>, chunks: seq<seq<byte>>, memory: seq<Beyond>)
  {
    function Batch(): seq<byte> {
      if handler.Holding? then handler.batch else []
    }
  }

  const CLIENT_INIT := ClientState([], 0, {}, ClientWaiting, Receiver([], []), [], [], [])

  datatype ClientLabel =
    | Stage(poster: Poster, data: seq<byte>)
    | Raise(poster: Poster)
    | WakeUp
    | Take
    | Pass(beyond: Beyond)

  predicate ClientEnabled(s: ClientState, l: ClientLabel) {
    match l
    case Stage(p, _) => p !in s.owing
    case Raise(p) => p in s.owing
    case WakeUp => s.handler.ClientWaiting? && s.semaphore > 0
    case Take => s.handler.ClientWoken?
    case Pass(_) => s.handler.Holding? && |s.receiver.carry + s.handler.batch| < MAX_BUFFER
  }

  function ClientStep(s: ClientState, l: ClientLabel, body: BodyReader): ClientState
    requires ClientEnabled(s, l)
  {
    match l
    case Stage(p, data) => s.(staging := s.staging + data, owing := s.owing + {p}, posted := s.posted + data)
    case Raise(p) => s.(owing := s.owing - {p}, semaphore := s.semaphore + 1)
    case WakeUp => s.(handler := ClientWoken, semaphore := s.semaphore - 1)
    case Take => s.(handler := if s.staging == [] then ClientWaiting else Holding(s.staging), staging := [])
    case Pass(beyond) =>
      var batch := s.handler.batch;
      s.(handler := ClientWaiting, receiver := Receive(s.receiver, batch, HEADER, beyond, body),
         chunks := s.chunks + [batch], memory := s.memory + [beyond])
  }

  predicate ClientLegal(s: ClientState, ls: seq<ClientLabel>, body: BodyReader)
    decreases |ls|
  {
    ls == [] || (ClientEnabled(s, ls[0]) && ClientLegal(ClientStep(s, ls[0], body), ls[1..], body))
  }

  function ClientRun(s: ClientState, ls: seq<ClientLabel>, body: BodyReader): ClientState
    requires ClientLegal(s, ls, body)
    decreases |ls|
  {
    if ls == [] then s else ClientRun(ClientStep(s, ls[0], body), ls[1..], body)
  }

  /** A step, and the rest of a run. */
  lemma ClientRunFirst(s: ClientState, l: ClientLabel, rest: seq<ClientLabel>, body: BodyReader)
    requires ClientEnabled(s, l) && ClientLegal(ClientStep(s, l, body), rest, body)
    ensures ClientLegal(s, [l] + rest, body)
    ensures ClientRun(s, [l] + rest, body) == ClientRun(ClientStep(s, l, body), rest, body)
  {
    hide ClientEnabled, ClientStep;
    assert ([l] + rest)[1..] == rest;
  }

  /** The receiver is that of a run of passes over the chunks taken so far. */
  ghost predicate Received(s: ClientState, body: BodyReader) {
    && |s.memory| == |s.chunks|
    && Fits(s.chunks, Memory(s.memory), HEADER, body)
    && s.receiver == RunPasses(s.chunks, Memory(s.memory), HEADER, body)
  }

  /** Staged bytes have a wake-up on its way to them; all bytes posted were scanned, or are held by the
      handler or staged, in that order. */
  ghost predicate ClientSound(s: ClientState, body: BodyReader) {
    && (s.staging != [] ==> s.semaphore > 0 || s.owing != {} || s.handler.ClientWoken?)
    && s.posted == Posted(s.chunks) + (s.Batch() + s.staging)
    && Received(s, body)
  }

  lemma OneMorePass(chunks: seq<seq<byte>>, memory: seq<Beyond>, chunk: seq<byte>, beyond: Beyond, body: BodyReader)
    requires |memory| == |chunks| && Fits(chunks, Memory(memory), HEADER, body)
    requires |RunPasses(chunks, Memory(memory), HEADER, body).carry + chunk| < MAX_BUFFER
    ensures Fits(chunks + [chunk], Memory(memory + [beyond]), HEADER, body)
    ensures RunPasses(chunks + [chunk], Memory(memory + [beyond]), HEADER, body)
         == Receive(RunPasses(chunks, Memory(memory), HEADER, body), chunk, HEADER, beyond, body)
  {
    hide Receive;
    var chunks', m' := chunks + [chunk], Memory(memory + [beyond]);
    assert chunks'[..|chunks|] == chunks && chunks'[|chunks|] == chunk && m'(|chunks|) == beyond;
    RunMemory(chunks, Memory(memory), m', HEADER, body);
  }

  lemma ClientStepSound(s: ClientState, l: ClientLabel, body: BodyReader)
    requires ClientSound(s, body) && ClientEnabled(s, l)
    ensures ClientSound(ClientStep(s, l, body), body)
  {
    hide Receive, Fits, RunPasses;
    var s' := ClientStep(s, l, body);
    match l
    case Stage(p, data) =>
      assert p in s'.owing;
      Associative(Posted(s.chunks), s.Batch() + s.staging, data);
      Associative(s.Batch(), s.staging, data);
    case Take =>
      assert [] + s.staging == s.staging + [];
    case Pass(beyond) =>
      var batch := s.handler.batch;
      OneMorePass(s.chunks, s.memory, batch, beyond, body);
      assert (s.chunks + [batch])[..|s.chunks|] == s.chunks;
      Associative(Posted(s.chunks), batch, s.staging);
      assert [] + s.staging == s.staging;
    case Raise(_) =>
    case WakeUp =>
  }

  lemma {:induction false} ClientRunSound(s: ClientState, ls: seq<ClientLabel>, body: BodyReader)
    requires ClientSound(s, body) && ClientLegal(s, ls, body)
    ensures ClientSound(ClientRun(s, ls, body), body)
    decreases |ls|
  {
    if ls != [] {
      ClientStepSound(s, ls[0], body);
      hide ClientSound, ClientStep, ClientEnabled;
      ClientRunSound(ClientStep(s, ls[0], body), ls[1..], body);
    }
  }

  /** In every schedule: staged bytes have a wake-up due, and every byte posted is consumed, carried over,
      taken or staged, in that order. */
  lemma ClientLosesNothing(ls: seq<ClientLabel>, body: BodyReader)
    requires ClientLegal(CLIENT_INIT, ls, body)
    ensures var s := ClientRun(CLIENT_INIT, ls, body);
      && (s.staging != [] ==> s.semaphore > 0 || s.owing != {} || s.handler.ClientWoken?)
      && s.posted == Consumed(s.receiver.items) + s.receiver.carry + (s.Batch() + s.staging)
  {
    ClientRunSound(CLIENT_INIT, ls, body);
    var s := ClientRun(CLIENT_INIT, ls, body);
    hide ClientRun, ClientLegal, Fits, RunPasses, Consumed;
    RunConserves(s.chunks, Memory(s.memory), HEADER, body);
  }

  /** No pass that scanned ended one to three bytes into a frame. */
  ghost predicate PassesAllowed(s: ClientState, segs: seq<Segment>, body: BodyReader) {
    Received(s, body) ==> ScansAllowed(segs, s.chunks, Memory(s.memory), HEADER, body)
  }

  /** In every schedule that ends with the handler waiting at zero and no poster under way, all posted bytes
      have been taken by a pass; if they are a beginning of a clean stream, exactly its complete frames were
      delivered, provided the passes are allowed. */
  lemma QuietClientIsFaithful(ls: seq<ClientLabel>, segs: seq<Segment>, body: BodyReader)
    requires ClientLegal(CLIENT_INIT, ls, body) && Clean(segs, body)
    requires var s := ClientRun(CLIENT_INIT, ls, body);
      && s.handler.ClientWaiting? && s.semaphore == 0 && s.owing == {} && s.posted <= Flat(segs)
      && PassesAllowed(s, segs, body)
    ensures var s := ClientRun(CLIENT_INIT, ls, body); Faithful(segs, |s.posted|, s.receiver)
  {
    ClientRunSound(CLIENT_INIT, ls, body);
    var s := ClientRun(CLIENT_INIT, ls, body);
    hide ClientRun, ClientLegal, Fits, RunPasses, Faithful, ScansAllowed, Clean;
    assert Posted(s.chunks) + ([] + []) == Posted(s.chunks);
    ChunkingIndependence(segs, s.chunks, Memory(s.memory), HEADER, body);
  }
}
