/**
 The server's receive pipeline: any number of threads post bytes of any number of links, one handler
 thread takes them in passes. First the threads as a transition system, one label per locked or
 atomic step; then the class, whose methods are runs of that system.
 */
module ReceivePipeline {
  import opened Bytes
  import opened Framing
  import opened FramingStream

  type Handle = uint32

  type Poster = nat

  /** Where the handler thread is: in sem_timedwait, between a successful wait and its swap, or
      working through the swapped-out map. */
  datatype Handler = Waiting | Woken | Working(batch: map<Handle, seq<byte>>)

  /** owing holds the posters between their append and their sem_post; posted is a history. */
  datatype State = State(
    staging: map<Handle, seq<byte>>, semaphore: nat, owing: set<Poster>, handler: Handler,
    carry: map<Handle, seq<byte>>, done: map<Handle, seq<Item>>, posted: map<Handle, seq<byte>>)
  {
    function Batch(): map<Handle, seq<byte>> {
      if handler.Working? then handler.batch else map[]
    }

    function ReceiverOf(h: Handle): Receiver {
      Receiver(Get(carry, h), Get(done, h))
    }
  }

  function Get<T>(m: map<Handle, seq<T>>, h: Handle): seq<T> {
    if h in m then m[h] else []
  }

  const INIT := State(map[], 0, {}, Waiting, map[], map[], map[])

  datatype Label =
    | Append(poster: Poster, link: Handle, data: seq<byte>)
    | Post(poster: Poster)
    | Wait
    | Swap
    | Process(link: Handle, beyond: Beyond)

  predicate Enabled(s: State, l: Label) {
    match l
    case Append(p, h, data) => p !in s.owing && data != []
    case Post(p) => p in s.owing
    case Wait => s.handler == Waiting && s.semaphore > 0
    case Swap => s.handler == Woken
    case Process(h, _) => s.handler.Working? && h in s.handler.batch
                          && |Get(s.carry, h) + s.handler.batch[h]| < MAX_BUFFER
  }

  function Step(s: State, l: Label, body: BodyReader): State
    requires Enabled(s, l)
  {
    match l
    case Append(p, h, data) =>
      s.(staging := s.staging[h := Get(s.staging, h) + data],
         owing := s.owing + {p},
         posted := s.posted[h := Get(s.posted, h) + data])
    case Post(p) => s.(owing := s.owing - {p}, semaphore := s.semaphore + 1)
    case Wait => s.(handler := Woken, semaphore := s.semaphore - 1)
    case Swap => s.(handler := if s.staging == map[] then Waiting else Working(s.staging), staging := map[])
    case Process(h, beyond) =>
      var r := Receive(s.ReceiverOf(h), s.handler.batch[h], 0, beyond, body);
      var batch := s.handler.batch - {h};
      s.(handler := if batch == map[] then Waiting else Working(batch),
         carry := s.carry[h := r.carry], done := s.done[h := r.items])
  }

  /** A schedule: every label is enabled when its turn comes. */
  predicate Legal(s: State, ls: seq<Label>, body: BodyReader)
    decreases |ls|
  {
    ls == [] || (Enabled(s, ls[0]) && Legal(Step(s, ls[0], body), ls[1..], body))
  }

  function Run(s: State, ls: seq<Label>, body: BodyReader): State
    requires Legal(s, ls, body)
    decreases |ls|
  {
    if ls == [] then s else Run(Step(s, ls[0], body), ls[1..], body)
  }

  lemma {:induction false} RunConcat(s: State, a: seq<Label>, b: seq<Label>, body: BodyReader)
    requires Legal(s, a, body)
    ensures Legal(s, a + b, body) <==> Legal(Run(s, a, body), b, body)
    ensures Legal(s, a + b, body) ==> Run(s, a + b, body) == Run(Run(s, a, body), b, body)
    decreases |a|
  {
    if a == [] {
      assert a + b == b;
    } else {
      assert (a + b)[0] == a[0] && (a + b)[1..] == a[1..] + b;
      RunConcat(Step(s, a[0], body), a[1..], b, body);
    }
  }

  // ---- No lost wake-up ----

  predicate WakeUpDue(s: State) {
    s.staging != map[] ==> s.semaphore > 0 || s.owing != {} || s.handler == Woken
  }

  /** Staged bytes always have a wake-up on its way to them. */
  lemma {:induction false} NoLostWakeUp(s: State, ls: seq<Label>, body: BodyReader)
    requires WakeUpDue(s) && Legal(s, ls, body)
    ensures WakeUpDue(Run(s, ls, body))
    decreases |ls|
  {
    if ls != [] {
      if ls[0].Append? {
        assert ls[0].poster in Step(s, ls[0], body).owing;
      }
      NoLostWakeUp(Step(s, ls[0], body), ls[1..], body);
    }
  }

  // ---- Byte conservation ----

  /** Everything posted is consumed, carried over, swapped out or staged, in that order. */
  predicate ConservesFor(s: State, h: Handle) {
    Get(s.posted, h) == Consumed(Get(s.done, h)) + (Get(s.carry, h) + (Get(s.Batch(), h) + Get(s.staging, h)))
  }

  ghost predicate Conserves(s: State) {
    forall h :: ConservesFor(s, h)
  }

  lemma AppendConserves(s: State, l: Label, body: BodyReader, h: Handle)
    requires ConservesFor(s, h) && l.Append? && Enabled(s, l)
    ensures ConservesFor(Step(s, l, body), h)
  {
    hide Consumed;
    if l.link == h {
      AppendAtEnd(Consumed(Get(s.done, h)), Get(s.carry, h), Get(s.Batch(), h), Get(s.staging, h), l.data);
    }
  }

  lemma SwapConserves(s: State, body: BodyReader, h: Handle)
    requires ConservesFor(s, h) && Enabled(s, Swap)
    ensures ConservesFor(Step(s, Swap, body), h)
  {
    hide Consumed;
    assert [] + Get(s.staging, h) == Get(s.staging, h) + [];
  }

  lemma ProcessConserves(s: State, l: Label, body: BodyReader, h: Handle)
    requires ConservesFor(s, h) && l.Process? && Enabled(s, l)
    ensures ConservesFor(Step(s, l, body), h)
  {
    hide Consumed, Receive;
    if l.link == h {
      var s', batch := Step(s, l, body), Get(s.Batch(), h);
      ReceiveConserves(s.ReceiverOf(h), batch, 0, l.beyond, body);
      assert Get(s'.Batch(), h) == [];
      Regroup(Consumed(Get(s.done, h)), Get(s.carry, h), batch, Get(s.staging, h),
              Consumed(Get(s'.done, h)), Get(s'.carry, h));
    }
  }

  lemma StepConserves(s: State, l: Label, body: BodyReader)
    requires Conserves(s) && Enabled(s, l)
    ensures Conserves(Step(s, l, body))
  {
    forall h: Handle ensures ConservesFor(Step(s, l, body), h) {
      assert ConservesFor(s, h);
      match l
      case Append(_, _, _) => AppendConserves(s, l, body, h);
      case Swap => SwapConserves(s, body, h);
      case Process(_, _) => ProcessConserves(s, l, body, h);
      case Post(_) =>
      case Wait =>
    }
  }

  lemma AppendAtEnd(a: seq<byte>, b: seq<byte>, c: seq<byte>, d: seq<byte>, e: seq<byte>)
    ensures a + (b + (c + d)) + e == a + (b + (c + (d + e)))
  {
  }

  lemma Regroup(done: seq<byte>, carry: seq<byte>, batch: seq<byte>, staged: seq<byte>, done': seq<byte>,
                carry': seq<byte>)
    requires done' + carry' == done + (carry + batch)
    ensures done' + (carry' + ([] + staged)) == done + (carry + (batch + staged))
  {
    assert [] + staged == staged;
    Associative(done', carry', staged);
    Associative(done, carry + batch, staged);
    Associative(carry, batch, staged);
  }

  lemma {:induction false} BytesConserved(s: State, ls: seq<Label>, body: BodyReader)
    requires Conserves(s) && Legal(s, ls, body)
    ensures Conserves(Run(s, ls, body))
    decreases |ls|
  {
    if ls != [] {
      StepConserves(s, ls[0], body);
      BytesConserved(Step(s, ls[0], body), ls[1..], body);
    }
  }

  // ---- Links do not interfere ----

  /** One link alone: what is staged, what was swapped out, and the chunks its passes were given. */
  datatype Pipe = Pipe(staged: seq<byte>, batch: seq<byte>, chunks: seq<seq<byte>>, memory: seq<Beyond>)

  /** The labels that concern a link: its own bytes and scans, and the pass boundaries. */
  predicate Concerns(l: Label, h: Handle) {
    l == Swap || ((l.Append? || l.Process?) && l.link == h)
  }

  function Own(ls: seq<Label>, h: Handle): seq<Label> {
    if ls == [] then []
    else (if Concerns(ls[0], h) then [ls[0]] else []) + Own(ls[1..], h)
  }

  function Feed(p: Pipe, l: Label): Pipe {
    match l
    case Append(_, _, data) => p.(staged := p.staged + data)
    case Swap => p.(batch := p.staged, staged := [])
    case Process(_, beyond) => p.(batch := [], chunks := p.chunks + [p.batch], memory := p.memory + [beyond])
    case Post(_) => p
    case Wait => p
  }

  function FeedAll(p: Pipe, ls: seq<Label>): Pipe
    decreases |ls|
  {
    if ls == [] then p else FeedAll(Feed(p, ls[0]), ls[1..])
  }

  const EMPTY_PIPE := Pipe([], [], [], [])

  function MemoryAt(m: seq<Beyond>, i: nat): Beyond {
    if i < |m| then m[i] else Zero()
  }

  function Memory(m: seq<Beyond>): nat -> Beyond {
    (i: nat) => MemoryAt(m, i)
  }

  /** The link's part of the shared state is exactly the state of its own pipeline. */
  ghost predicate Mirrors(s: State, p: Pipe, h: Handle, body: BodyReader) {
    && Get(s.staging, h) == p.staged
    && Get(s.Batch(), h) == p.batch
    && |p.memory| == |p.chunks|
    && Fits(p.chunks, Memory(p.memory), 0, body)
    && s.ReceiverOf(h) == RunPasses(p.chunks, Memory(p.memory), 0, body)
  }

  lemma ProcessMirrors(s: State, beyond: Beyond, p: Pipe, h: Handle, body: BodyReader)
    requires Mirrors(s, p, h, body) && Enabled(s, Process(h, beyond))
    ensures Mirrors(Step(s, Process(h, beyond), body), Feed(p, Process(h, beyond)), h, body)
  {
    hide Receive;
    var p' := Feed(p, Process(h, beyond));
    var last := |p'.chunks| - 1;
    assert p'.chunks[..last] == p.chunks && p'.chunks[last] == p.batch;
    assert Memory(p'.memory)(last) == beyond;
    RunMemory(p.chunks, Memory(p.memory), Memory(p'.memory), 0, body);
  }

  /** A scan of another link. */
  lemma ElsewhereMirrors(s: State, l: Label, p: Pipe, h: Handle, body: BodyReader)
    requires Mirrors(s, p, h, body) && Enabled(s, l) && l.Process? && l.link != h
    ensures Mirrors(Step(s, l, body), p, h, body)
  {
    hide Receive, RunPasses, Fits;
  }

  lemma MovesMirror(s: State, l: Label, p: Pipe, h: Handle, body: BodyReader)
    requires Mirrors(s, p, h, body) && Enabled(s, l) && !l.Process?
    ensures Mirrors(Step(s, l, body), if Concerns(l, h) then Feed(p, l) else p, h, body)
  {
    hide Receive, RunPasses, Fits;
  }

  lemma StepMirrors(s: State, l: Label, p: Pipe, h: Handle, body: BodyReader)
    requires Mirrors(s, p, h, body) && Enabled(s, l)
    ensures Mirrors(Step(s, l, body), if Concerns(l, h) then Feed(p, l) else p, h, body)
  {
    hide Mirrors, Step, Feed;
    if !l.Process? {
      MovesMirror(s, l, p, h, body);
    } else if l.link == h {
      ProcessMirrors(s, l.beyond, p, h, body);
    } else {
      ElsewhereMirrors(s, l, p, h, body);
    }
  }

  lemma FeedOwn(p: Pipe, ls: seq<Label>, h: Handle)
    requires ls != []
    ensures FeedAll(p, Own(ls, h)) == FeedAll(if Concerns(ls[0], h) then Feed(p, ls[0]) else p, Own(ls[1..], h))
  {
    if Concerns(ls[0], h) {
      assert ([ls[0]] + Own(ls[1..], h))[1..] == Own(ls[1..], h);
    } else {
      assert [] + Own(ls[1..], h) == Own(ls[1..], h);
    }
  }

  lemma {:induction false} RunMirrors(s: State, ls: seq<Label>, p: Pipe, h: Handle, body: BodyReader)
    requires Mirrors(s, p, h, body) && Legal(s, ls, body)
    ensures Mirrors(Run(s, ls, body), FeedAll(p, Own(ls, h)), h, body)
    decreases |ls|
  {
    if ls != [] {
      hide Mirrors, Feed, FeedAll, Own, Step, Enabled;
      StepMirrors(s, ls[0], p, h, body);
      FeedOwn(p, ls, h);
      RunMirrors(Step(s, ls[0], body), ls[1..], if Concerns(ls[0], h) then Feed(p, ls[0]) else p, h, body);
    }
  }

  /** The chunks a schedule hands to a link's passes: determined by the link's own labels. */
  function PipeOf(ls: seq<Label>, h: Handle): Pipe {
    FeedAll(EMPTY_PIPE, Own(ls, h))
  }

  /** Non-interference: in every schedule of all links, each link is received exactly as if it were
      alone, pass by pass, however the other links' posts and scans interleave. */
  lemma LinksDoNotInterfere(ls: seq<Label>, h: Handle, body: BodyReader)
    requires Legal(INIT, ls, body)
    ensures var p := PipeOf(ls, h);
      && Fits(p.chunks, Memory(p.memory), 0, body)
      && Run(INIT, ls, body).ReceiverOf(h) == RunPasses(p.chunks, Memory(p.memory), 0, body)
  {
    RunMirrors(INIT, ls, EMPTY_PIPE, h, body);
  }

  /** Hence a link's deliveries are a function of its own bytes and the pass boundaries. */
  lemma OnlyOwnLabelsMatter(ls: seq<Label>, ls': seq<Label>, h: Handle, body: BodyReader)
    requires Legal(INIT, ls, body) && Legal(INIT, ls', body) && Own(ls, h) == Own(ls', h)
    ensures Run(INIT, ls, body).ReceiverOf(h) == Run(INIT, ls', body).ReceiverOf(h)
  {
    LinksDoNotInterfere(ls, h, body);
    LinksDoNotInterfere(ls', h, body);
  }

  /** The pipeline as a whole delivers: a link whose scanned bytes are a beginning of a clean stream,
      with no pass ending inside a magic word, gets exactly its complete frames, under every schedule. */
  lemma EveryLinkIsFaithful(ls: seq<Label>, h: Handle, segs: seq<Segment>, body: BodyReader)
    requires Legal(INIT, ls, body) && Clean(segs, body)
    requires Posted(PipeOf(ls, h).chunks) <= Flat(segs) && CutsAllowed(segs, PipeOf(ls, h).chunks)
    ensures Faithful(segs, |Posted(PipeOf(ls, h).chunks)|, Run(INIT, ls, body).ReceiverOf(h))
  {
    LinksDoNotInterfere(ls, h, body);
    var p := PipeOf(ls, h);
    CutsAndScans(segs, p.chunks, Memory(p.memory), 0, body);
    ChunkingIndependence(segs, p.chunks, Memory(p.memory), 0, body);
  }

  /** A thread waiting with the semaphore at zero, and no poster in between, means nothing is staged:
      then every posted byte of a link has been through a scan. */
  lemma QuietMeansScanned(ls: seq<Label>, h: Handle, body: BodyReader)
    requires Legal(INIT, ls, body)
    requires var s := Run(INIT, ls, body); s.handler == Waiting && s.semaphore == 0 && s.owing == {}
    ensures Posted(PipeOf(ls, h).chunks) == Get(Run(INIT, ls, body).posted, h)
  {
    var s := Run(INIT, ls, body);
    NoLostWakeUp(INIT, ls, body);
    BytesConserved(INIT, ls, body);
    assert ConservesFor(s, h);
    LinksDoNotInterfere(ls, h, body);
    var p := PipeOf(ls, h);
    RunConserves(p.chunks, Memory(p.memory), 0, body);
    assert Get(s.carry, h) + ([] + []) == Get(s.carry, h);
  }
}
