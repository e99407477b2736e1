/** The life of TCP links on one thread whose callbacks may call back into the library at any event. A
    transition system: a step runs up to the next callback or to the end of the call, and the stack holds
    what is still to be done when a callback returns. */
module TcpLifecycle {

  type Handle = h: int | 0 <= h < 0x1_0000_0000

  type Descriptor = fd: int | 0 <= fd < 0x8000_0000

  /** An index into the links ever registered: which object, whatever its handle. */
  type Id = nat

  type EpollData = d: int | 0 <= d < 0x1_0000_0000_0000_0000

  const INVALID: Handle := 0xffff_ffff

  datatype Kind = Null | Listening | Connecting | Accepted | Connected

  /** mh_link, mi_socket, m_link_type, then histories: how often its socket was closed and CLOSED sent. */
  datatype Link = Link(handle: Handle, socket: int, kind: Kind, closes: nat, closedEvents: nat)

  // ---- epoll's data word ----

  /** attach_to_epoll: the handle in the high half, then the descriptor written over the low half. */
  function Pack(h: Handle, fd: Descriptor): EpollData {
    var data: int := h * 0x1_0000_0000;
    data - data % 0x1_0000_0000 + fd
  }

  function HandleOf(data: EpollData): Handle {
    data / 0x1_0000_0000
  }

  lemma PackKeepsHandle(h: Handle, fd: Descriptor)
    ensures HandleOf(Pack(h, fd)) == h
    ensures Pack(h, fd) / 0x1_0000_0000 == h && Pack(h, fd) % 0x1_0000_0000 == fd
  {
  }

  /** A registration with epoll: the data word, and for which link it was made. */
  datatype Attachment = Attachment(data: EpollData, id: Id)

  // ---- States ----

  datatype Frame =
    | Callback                   // the application's code
    | AfterClosed(id: Id)        // link_destroy, CLOSED sent
    | AfterCreated(id: Id)       // ms_tcp_create, CREATED sent
    | AfterConnected(id: Id)     // ms_tcp_connect, CONNECTED sent
    | AfterDisconnected(id: Id)  // worker, DISCONNECTED sent
    | Accepting(id: Id)          // on_event_accept, in its loop
    | Reading(id: Id)            // on_event_read, in its loop
    | AfterRead(id: Id)          // on_event_read, link destroyed, before RECV_END
    | AfterKeepAlive             // worker, KEEPALIVE sent
    | Freeing(todo: seq<Id>)     // free_all_link_map, in its loop

  /** links stands for the heap of link objects; descriptors for those the process has open; dispatching
      says whether the worker got past its keep-alive check in this turn. */
  datatype State = State(
    links: seq<Link>, maplink: map<Handle, Id>, socketMap: map<Handle, int>, first: Handle, keepAlive: nat,
    dispatching: bool, stack: seq<Frame>, descriptors: set<Descriptor>, attached: seq<Attachment>)

  const INIT := State([], map[], map[], INVALID, 0, false, [], {}, [])

  datatype Creation = SocketFails | BindFails | Created(fd: Descriptor)

  datatype Connection = NoAddress | Refused | Connects

  datatype Acceptance = AcceptFails | NameFails | Accepts(fd: Descriptor, attach: bool)

  /** What read returns: bytes, an error, an interruption with or without a new registration, or the end. */
  datatype Reception = Data | Error | Interrupted(rearm: bool) | Ends

  datatype Flags = Flags(disconnected: bool, readable: bool, writeable: bool)

  datatype Label =
    | Create(made: Creation)
    | Destroy(h: Handle)
    | Connect(h: Handle, result: Connection)
    | Listen(h: Handle, backlog: nat, works: bool, attach: bool)
    | Poll
    | Event(n: nat, flags: Flags)
    | FreeAll
    | Return
    | FinishClosed
    | FinishCreated
    | FinishConnected(attach: bool)
    | FinishDisconnected
    | FinishRead
    | FinishKeepAlive
    | Accept(taken: Acceptance)
    | Read(got: Reception)
    | FreeNext

  /** The link a frame works on. */
  predicate FrameInBounds(f: Frame, n: nat) {
    match f
    case Callback => true
    case AfterKeepAlive => true
    case Freeing(todo) => forall id :: id in todo ==> id < n
    case AfterClosed(id) => id < n
    case AfterCreated(id) => id < n
    case AfterConnected(id) => id < n
    case AfterDisconnected(id) => id < n
    case Accepting(id) => id < n
    case Reading(id) => id < n
    case AfterRead(id) => id < n
  }

  /** Whatever names a link names one that exists. */
  predicate InBounds(s: State) {
    && |s.links| < 0x8000_0000
    && (forall h :: h in s.maplink ==> s.maplink[h] < |s.links|)
    && (forall f :: f in s.stack ==> FrameInBounds(f, |s.links|))
  }

  // ---- Pieces of the code ----

  /** Sending an event runs the application's callback. */
  function Emit(s: State): State {
    s.(stack := [Callback] + s.stack)
  }

  function Push(s: State, f: Frame): State {
    s.(stack := [f] + s.stack)
  }

  function Pop(s: State): State
    requires s.stack != []
  {
    s.(stack := s.stack[1..])
  }

  function SetSocket(s: State, id: Id, socket: int): State
    requires id < |s.links|
  {
    s.(links := s.links[id := s.links[id].(socket := socket)])
  }

  function SetKind(s: State, id: Id, kind: Kind): State
    requires id < |s.links|
  {
    s.(links := s.links[id := s.links[id].(kind := kind)])
  }

  /** close(mi_socket): nothing when it is -1. */
  function CloseSocket(s: State, id: Id): State
    requires id < |s.links|
  {
    var l := s.links[id];
    if l.socket < 0 then s
    else s.(links := s.links[id := l.(closes := l.closes + 1)],
            descriptors := set fd | fd in s.descriptors && fd != l.socket)
  }

  /** add_tcp_link and set_link: the next handle, in both maps. */
  function AddTcpLink(s: State, fd: Descriptor, kind: Kind): State
    requires |s.links| + 1 < 0x8000_0000
  {
    var h := |s.links| + 1;
    s.(links := s.links + [Link(h, fd, kind, 0, 0)], maplink := s.maplink[h := |s.links|],
       socketMap := s.socketMap[h := fd], descriptors := s.descriptors + {fd})
  }

  function DelLink(s: State, h: Handle): State {
    if h in s.maplink then s.(maplink := s.maplink - {h}, socketMap := s.socketMap - {h}) else s
  }

  /** link_destroy, up to the callback for CLOSED if there is one. */
  function LinkDestroy(s: State, id: Id, self: bool): (r: State)
    requires InBounds(s) && id < |s.links|
    ensures InBounds(r) && |r.links| == |s.links|
  {
    var h := s.links[id].handle;
    var s1 := DelLink(s.(first := if h == s.first then INVALID else s.first), h);
    if s.links[id].socket == -1 then s1
    else
      var s2 := CloseSocket(s1, id);
      if self then
        var l := s2.links[id];
        Emit(Push(s2.(links := s2.links[id := l.(closedEvents := l.closedEvents + 1)]), AfterClosed(id)))
      else SetSocket(s2, id, -1)
  }

  /** attach_to_epoll; it fails on descriptor -1. */
  function Attach(s: State, id: Id, h: Handle): (r: State)
    requires id < |s.links|
    ensures r == s.(attached := r.attached)
  {
    var fd := s.links[id].socket;
    if 0 <= fd < 0x8000_0000 then s.(attached := s.attached + [Attachment(Pack(h, fd), id)]) else s
  }

  // ---- Steps ----

  /** The application may call the library from the top level or from a callback. */
  predicate Free(s: State) {
    s.stack == [] || s.stack[0] == Callback
  }

  /** What the system can answer. New descriptors are not in use, and nothing works on descriptor -1. */
  predicate Enabled(s: State, l: Label)
    requires InBounds(s)
  {
    match l
    case Create(made) => Free(s) && (made.Created? ==> made.fd !in s.descriptors && |s.links| + 1 < 0x8000_0000)
    case Destroy(_) => Free(s)
    case Connect(h, result) => Free(s) && (result.Connects? ==> HasSocket(s, h))
    case Listen(h, backlog, works, attach) =>
      Free(s) && (works ==> HasSocket(s, h) && backlog > 0) && (attach ==> works)
    case Poll => s.stack == []
    case Event(n, _) => s.stack == [] && s.dispatching && n < |s.attached|
    case FreeAll => s.stack == []
    case Return => s.stack != [] && s.stack[0].Callback?
    case FinishClosed => s.stack != [] && s.stack[0].AfterClosed?
    case FinishCreated => s.stack != [] && s.stack[0].AfterCreated?
    case FinishConnected(_) => s.stack != [] && s.stack[0].AfterConnected?
    case FinishDisconnected => s.stack != [] && s.stack[0].AfterDisconnected?
    case FinishRead => s.stack != [] && s.stack[0].AfterRead?
    case FinishKeepAlive => s.stack != [] && s.stack[0].AfterKeepAlive?
    case Accept(taken) =>
      s.stack != [] && s.stack[0].Accepting? &&
      (taken.Accepts? ==> taken.fd !in s.descriptors && |s.links| + 1 < 0x8000_0000
                          && SocketOf(s, s.stack[0]) >= 0)
    case Read(got) =>
      s.stack != [] && s.stack[0].Reading? &&
      (!got.Error? ==> SocketOf(s, s.stack[0]) >= 0)
    case FreeNext => s.stack != [] && s.stack[0].Freeing?
  }

  predicate HasSocket(s: State, h: Handle)
    requires InBounds(s)
  {
    h in s.maplink && s.links[s.maplink[h]].socket >= 0
  }

  /** The socket of the link a worker's loop is at. */
  function SocketOf(s: State, f: Frame): int
    requires InBounds(s) && f in s.stack && (f.Accepting? || f.Reading?)
  {
    assert FrameInBounds(f, |s.links|);
    s.links[f.id].socket
  }

  function CountTurn(keepAlive: nat): nat {
    if keepAlive + 1 >= 10000 then 0 else keepAlive + 1
  }

  /** The head of a turn of the worker: when the first link's handle is stale, on every tenth turn, it skips
      the turn's events. */
  function PollStep(s: State): (r: State)
    requires InBounds(s)
    ensures InBounds(r)
  {
    if s.first == INVALID then s.(dispatching := true)
    else if s.keepAlive % 10 != 0 then s.(dispatching := true, keepAlive := CountTurn(s.keepAlive))
    else if s.first !in s.maplink then s.(dispatching := false)
    else Emit(Push(s.(dispatching := true), AfterKeepAlive))
  }

  /** Dispatching what epoll registered as data. */
  function Dispatch(s: State, data: EpollData, flags: Flags): (r: State)
    requires InBounds(s)
    ensures InBounds(r)
  {
    var h := HandleOf(data);
    if h !in s.maplink then s
    else
      var id := s.maplink[h];
      if flags.disconnected then Emit(Push(s, AfterDisconnected(id)))
      else
        match s.links[id].kind
        case Listening => if flags.readable then Push(s, Accepting(id)) else s
        case Connecting => if flags.readable || flags.writeable then SetKind(s, id, Connected) else s
        case Null => s
        case _ => if flags.readable then Emit(Push(s, Reading(id))) else s
  }

  function Step(s: State, l: Label): (r: State)
    requires InBounds(s) && Enabled(s, l)
    ensures InBounds(r)
  {
    match l
    case Create(made) =>
      if made.Created? then Emit(Push(AddTcpLink(s, made.fd, Null), AfterCreated(|s.links|))) else s
    case Destroy(h) => if h in s.maplink then LinkDestroy(s, s.maplink[h], true) else s
    case Connect(h, result) => if h in s.maplink then LinkConnect(s, s.maplink[h], result) else s
    case Listen(h, backlog, _, attach) =>
      if h !in s.maplink || backlog == 0 then s
      else
        var s1 := SetKind(s, s.maplink[h], Listening);
        if attach then Attach(s1, s.maplink[h], h) else s1
    case Poll => PollStep(s)
    case Event(n, flags) => Dispatch(s, s.attached[n].data, flags)
    case FreeAll => Push(s, Freeing(ByHandle(s.maplink, |s.links|)))
    case Return => Pop(s)
    case FinishKeepAlive => Pop(s).(keepAlive := CountTurn(s.keepAlive))
    case FinishRead => Emit(Pop(s))
    case _ => assert FrameInBounds(s.stack[0], |s.links|); Continue(s, l)
  }

  predicate Continuation(l: Label) {
    || l.FinishClosed? || l.FinishCreated? || l.FinishConnected? || l.FinishDisconnected?
    || l.Accept? || l.Read? || l.FreeNext?
  }

  /** link_connect, up to its callback. */
  function LinkConnect(s: State, id: Id, result: Connection): (r: State)
    requires InBounds(s) && id < |s.links|
    ensures InBounds(r)
  {
    if result.NoAddress? then s
    else
      var s1 := SetKind(s, id, Connecting);
      if result.Connects? then Emit(Push(s1, AfterConnected(id)))
      else Emit(SetSocket(CloseSocket(s1, id), id, -1))
  }

  /** What the code does when a callback, or a turn of one of its loops, is over. */
  function Continue(s: State, l: Label): (r: State)
    requires InBounds(s) && Enabled(s, l) && Continuation(l) && FrameInBounds(s.stack[0], |s.links|)
    ensures InBounds(r)
  {
    match l
    case FinishClosed => SetSocket(Pop(s), s.stack[0].id, -1)
    case FinishCreated =>
      if s.first == INVALID then Pop(s).(first := s.links[s.stack[0].id].handle) else Pop(s)
    case FinishConnected(attach) =>
      if attach then Attach(Pop(s), s.stack[0].id, s.links[s.stack[0].id].handle) else Pop(s)
    case FinishDisconnected => LinkDestroy(Pop(s), s.stack[0].id, false)
    case Accept(taken) =>
      if !taken.Accepts? then Pop(s)
      else
        var s1 := AddTcpLink(s, taken.fd, Accepted);
        if taken.attach then Emit(Attach(s1, |s.links|, |s.links| + 1)) else s1
    case Read(got) =>
      (match got
       case Data => Emit(s)
       case Error => Emit(Pop(s))
       case Interrupted(rearm) =>
         var s1 := if rearm then Attach(Pop(s), s.stack[0].id, s.links[s.stack[0].id].handle) else Pop(s);
         Emit(s1)
       case Ends => LinkDestroy(Push(Pop(s), AfterRead(s.stack[0].id)), s.stack[0].id, true))
    case FreeNext =>
      var todo := s.stack[0].todo;
      if todo == [] then Pop(s)
      else
        assert todo[0] in todo && forall id :: id in todo[1..] ==> id in todo;
        LinkDestroy(Push(Pop(s), Freeing(todo[1..])), todo[0], true)
  }

  /** The registered links in handle order, as the map iterates. */
  function ByHandle(maplink: map<Handle, Id>, n: nat): (ids: seq<Id>)
    requires n < 0x8000_0000
    ensures forall h :: h in maplink && h <= n ==> maplink[h] in ids
    ensures forall id :: id in ids ==> id in maplink.Values
  {
    if n == 0 then if 0 in maplink then [maplink[0]] else []
    else
      var below := ByHandle(maplink, n - 1);
      if n in maplink then below + [maplink[n]] else below
  }

  predicate Legal(s: State, ls: seq<Label>)
    requires InBounds(s)
    decreases |ls|
  {
    ls == [] || (Enabled(s, ls[0]) && Legal(Step(s, ls[0]), ls[1..]))
  }

  function Run(s: State, ls: seq<Label>): State
    requires InBounds(s) && Legal(s, ls)
    ensures InBounds(Run(s, ls))
    decreases |ls|
  {
    if ls == [] then s else Run(Step(s, ls[0]), ls[1..])
  }

  lemma {:induction false} RunConcat(s: State, a: seq<Label>, b: seq<Label>)
    requires InBounds(s) && Legal(s, a)
    ensures Legal(s, a + b) <==> Legal(Run(s, a), b)
    ensures Legal(s, a + b) ==> Run(s, a + b) == Run(Run(s, a), b)
    decreases |a|
  {
    if a == [] {
      assert a + b == b;
    } else {
      assert (a + b)[0] == a[0] && (a + b)[1..] == a[1..] + b;
      RunConcat(Step(s, a[0]), a[1..], b);
    }
  }

  lemma RunOne(s: State, l: Label)
    requires InBounds(s) && Enabled(s, l)
    ensures Legal(s, [l]) && Run(s, [l]) == Step(s, l)
  {
    assert [l][1..] == [];
    assert Legal(Step(s, l), [l][1..]);
  }

  lemma RunExtends(s: State, ls: seq<Label>, l: Label)
    requires InBounds(s) && Legal(s, ls) && Enabled(Run(s, ls), l)
    ensures Legal(s, ls + [l]) && Run(s, ls + [l]) == Step(Run(s, ls), l)
  {
    RunOne(Run(s, ls), l);
    RunConcat(s, ls, [l]);
  }
}
