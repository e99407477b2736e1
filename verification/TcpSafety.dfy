/** What every run of the TCP link life cycle keeps, whatever the callbacks call. */
module TcpSafety {
  import opened TcpLifecycle

  /** The link still owns its socket: it has one and is not about to forget a closed one. */
  predicate Live(s: State, id: Id) {
    id < |s.links| && s.links[id].socket >= 0 && AfterClosed(id) !in s.stack
  }

  /** Handles count up from 1, one for each link, and the two maps agree. */
  predicate HandlesSound(s: State) {
    && (forall id :: 0 <= id < |s.links| ==> s.links[id].handle == id + 1)
    && s.maplink.Keys == s.socketMap.Keys
    && (forall h :: h in s.maplink ==> 0 < h && s.maplink[h] == h - 1)
  }

  /** A live link is registered and alone on an open descriptor; any other has closed its socket, once. */
  predicate LinkSound(s: State, id: Id)
    requires id < |s.links|
  {
    var l := s.links[id];
    && -1 <= l.socket < 0x8000_0000
    && l.closedEvents <= l.closes == (if Live(s, id) then 0 else 1)
    && (Live(s, id) ==> id + 1 in s.maplink && l.socket in s.descriptors)
    && (AfterClosed(id) in s.stack ==> id + 1 !in s.maplink)
  }

  ghost predicate Owned(s: State, fd: Descriptor) {
    exists id: Id :: Live(s, id) && s.links[id].socket == fd
  }

  ghost predicate SocketsSound(s: State) {
    && (forall id :: 0 <= id < |s.links| ==> LinkSound(s, id))
    && (forall id: Id, other: Id ::
          Live(s, id) && Live(s, other) && s.links[id].socket == s.links[other].socket ==> id == other)
    && (forall fd :: fd in s.descriptors ==> Owned(s, fd))
  }

  predicate OfWorker(f: Frame) {
    f.AfterDisconnected? || f.Accepting? || f.Reading? || f.AfterRead? || f.AfterKeepAlive? || f.Freeing?
  }

  /** The worker's loops and free_all_link_map are never entered from a callback. */
  predicate ShapeSound(s: State) {
    forall k :: 0 <= k < |s.stack| - 1 ==> !OfWorker(s.stack[k])
  }

  predicate AttachedSound(s: State) {
    forall a :: a in s.attached ==> a.id < |s.links| && HandleOf(a.data) == a.id + 1
  }

  ghost predicate Sound(s: State) {
    InBounds(s) && HandlesSound(s) && SocketsSound(s) && ShapeSound(s) && AttachedSound(s)
  }

  /** Descriptors that stay open keep their owner. */
  lemma OwnersKept(s: State, s': State)
    requires SocketsSound(s) && s'.descriptors <= s.descriptors
    requires forall k: Id :: Live(s, k) && s.links[k].socket in s'.descriptors ==>
      Live(s', k) && s'.links[k].socket == s.links[k].socket
    ensures forall fd :: fd in s'.descriptors ==> Owned(s', fd)
  {
    forall fd | fd in s'.descriptors ensures Owned(s', fd) {
      assert Owned(s, fd);
      var k: Id :| Live(s, k) && s.links[k].socket == fd;
      assert Live(s', k) && s'.links[k].socket == fd;
    }
  }

  lemma DestroyKeepsLive(s: State, id: Id, self: bool, k: Id)
    requires Sound(s) && id < |s.links| && AfterClosed(id) !in s.stack
    ensures Live(LinkDestroy(s, id, self), k) <==> Live(s, k) && k != id
    ensures k < |s.links| ==> LinkDestroy(s, id, self).links[k].socket == s.links[k].socket || k == id
  {
  }

  lemma DestroyKeepsSockets(s: State, id: Id, self: bool)
    requires Sound(s) && id < |s.links| && AfterClosed(id) !in s.stack
    ensures SocketsSound(LinkDestroy(s, id, self))
  {
    var s' := LinkDestroy(s, id, self);
    forall k: Id ensures Live(s', k) <==> Live(s, k) && k != id {
      DestroyKeepsLive(s, id, self, k);
    }
    forall k | 0 <= k < |s'.links| ensures LinkSound(s', k) {
      assert LinkSound(s, k) && LinkSound(s, id);
      DestroyKeepsLive(s, id, self, k);
    }
    forall k: Id | Live(s, k) && s.links[k].socket in s'.descriptors
      ensures Live(s', k) && s'.links[k].socket == s.links[k].socket
    {
      assert LinkSound(s, id);
      DestroyKeepsLive(s, id, self, k);
    }
    OwnersKept(s, s');
  }

  lemma DestroyKeepsSound(s: State, id: Id, self: bool)
    requires Sound(s) && id < |s.links| && AfterClosed(id) !in s.stack
    ensures Sound(LinkDestroy(s, id, self)) && id + 1 !in LinkDestroy(s, id, self).maplink
  {
    DestroyKeepsSockets(s, id, self);
    DestroyKeepsRest(s, id, self);
    hide SocketsSound, HandlesSound, ShapeSound, AttachedSound;
  }

  lemma DestroyKeepsRest(s: State, id: Id, self: bool)
    requires InBounds(s) && HandlesSound(s) && ShapeSound(s) && AttachedSound(s) && id < |s.links|
    ensures var s' := LinkDestroy(s, id, self);
      HandlesSound(s') && ShapeSound(s') && AttachedSound(s') && id + 1 !in s'.maplink
  {
    DestroyKeepsHandles(s, id, self);
    DestroyShrinks(s, id, self);
    var s' := LinkDestroy(s, id, self);
    assert s'.attached == s.attached;
    hide LinkDestroy, HandlesSound;
  }

  lemma DestroyKeepsHandles(s: State, id: Id, self: bool)
    requires InBounds(s) && HandlesSound(s) && id < |s.links|
    ensures HandlesSound(LinkDestroy(s, id, self)) && id + 1 !in LinkDestroy(s, id, self).maplink
  {
    DestroyLeaves(s, id, self);
    hide LinkDestroy;
  }

  lemma DestroyLeaves(s: State, id: Id, self: bool)
    requires InBounds(s) && id < |s.links|
    ensures var s', h := LinkDestroy(s, id, self), s.links[id].handle;
      && s'.maplink == (if h in s.maplink then s.maplink - {h} else s.maplink)
      && s'.socketMap == (if h in s.maplink then s.socketMap - {h} else s.socketMap)
      && forall k :: 0 <= k < |s.links| ==> s'.links[k].handle == s.links[k].handle
  {
  }

  /** Steps that only move between frames. */
  lemma StackKeepsSound(s: State, s': State)
    requires Sound(s) && InBounds(s') && ShapeSound(s')
    requires s' == s.(stack := s'.stack, first := s'.first, keepAlive := s'.keepAlive, dispatching := s'.dispatching)
    requires forall id :: AfterClosed(id) in s'.stack <==> AfterClosed(id) in s.stack
    ensures Sound(s')
  {
    assert forall id: Id :: Live(s', id) <==> Live(s, id);
    forall k | 0 <= k < |s'.links| ensures LinkSound(s', k) {
      assert LinkSound(s, k);
    }
    OwnersKept(s, s');
  }

  lemma FlagsKeepSound(s: State, s': State)
    requires Sound(s) && s' == s.(first := s'.first, keepAlive := s'.keepAlive, dispatching := s'.dispatching)
    ensures Sound(s')
  {
    StackKeepsSound(s, s');
  }

  lemma EmitKeepsSound(s: State)
    requires Sound(s)
    ensures Sound(Emit(s))
  {
    StackKeepsSound(s, Emit(s));
  }

  lemma PushKeepsSound(s: State, f: Frame)
    requires Sound(s) && FrameInBounds(f, |s.links|) && !f.AfterClosed? && (OfWorker(f) ==> s.stack == [])
    ensures Sound(Push(s, f))
  {
    StackKeepsSound(s, Push(s, f));
  }

  lemma PopKeepsSound(s: State)
    requires Sound(s) && s.stack != [] && !s.stack[0].AfterClosed?
    ensures Sound(Pop(s))
  {
    StackKeepsSound(s, Pop(s));
  }

  lemma SetKindKeepsSound(s: State, id: Id, kind: Kind)
    requires Sound(s) && id < |s.links|
    ensures Sound(SetKind(s, id, kind))
  {
    var s' := SetKind(s, id, kind);
    assert forall k: Id :: Live(s', k) <==> Live(s, k);
    forall k | 0 <= k < |s'.links| ensures LinkSound(s', k) {
      assert LinkSound(s, k);
    }
    OwnersKept(s, s');
  }

  lemma AttachKeepsSound(s: State, id: Id)
    requires Sound(s) && id < |s.links|
    ensures Sound(Attach(s, id, id + 1))
  {
    var s' := Attach(s, id, id + 1);
    if 0 <= s.links[id].socket < 0x8000_0000 {
      PackKeepsHandle(id + 1, s.links[id].socket);
    }
    assert forall k: Id :: Live(s', k) <==> Live(s, k);
    forall k | 0 <= k < |s'.links| ensures LinkSound(s', k) {
      assert LinkSound(s, k);
    }
    OwnersKept(s, s');
  }

  lemma AddKeepsSound(s: State, fd: Descriptor, kind: Kind)
    requires Sound(s) && fd !in s.descriptors && |s.links| + 1 < 0x8000_0000
    ensures Sound(AddTcpLink(s, fd, kind))
  {
    var s', n := AddTcpLink(s, fd, kind), |s.links|;
    assert !FrameInBounds(AfterClosed(n), n);
    forall k: Id ensures Live(s', k) <==> Live(s, k) || k == n {
      assert k < n ==> s'.links[k] == s.links[k];
    }
    forall k | 0 <= k < |s'.links| ensures LinkSound(s', k) {
      assert k < n ==> LinkSound(s, k);
    }
    forall k: Id, j: Id | Live(s', k) && Live(s', j) && s'.links[k].socket == s'.links[j].socket ensures k == j {
      assert k < n ==> LinkSound(s, k);
      assert j < n ==> LinkSound(s, j);
    }
    forall d | d in s'.descriptors ensures Owned(s', d) {
      if d == fd {
        assert Live(s', n);
      } else {
        assert Owned(s, d);
        var k: Id :| Live(s, k) && s.links[k].socket == d;
        assert Live(s', k);
      }
    }
  }

  /** connect failed: the socket is closed at once, the link stays registered. */
  lemma RefusalKeepsSound(s: State, id: Id)
    requires Sound(s) && id < |s.links| && AfterClosed(id) !in s.stack
    ensures Sound(SetSocket(CloseSocket(s, id), id, -1))
  {
    var s' := SetSocket(CloseSocket(s, id), id, -1);
    assert LinkSound(s, id);
    forall k: Id ensures Live(s', k) <==> Live(s, k) && k != id {
    }
    forall k | 0 <= k < |s'.links| ensures LinkSound(s', k) {
      assert LinkSound(s, k);
    }
    OwnersKept(s, s');
  }

  /** CLOSED has been handled: the link forgets the descriptor it closed. */
  lemma FinishKeepsSound(s: State)
    requires Sound(s) && s.stack != [] && s.stack[0].AfterClosed? && s.stack[0].id < |s.links|
    ensures Sound(SetSocket(Pop(s), s.stack[0].id, -1))
  {
    var id := s.stack[0].id;
    var s' := SetSocket(Pop(s), id, -1);
    assert LinkSound(s, id);
    forall k: Id ensures Live(s', k) <==> Live(s, k) {
    }
    forall k | 0 <= k < |s'.links| ensures LinkSound(s', k) {
      assert LinkSound(s, k);
    }
    OwnersKept(s, s');
  }

  // ---- Every step ----

  lemma RegisteredIsLiveOrClosed(s: State, h: Handle)
    requires Sound(s) && h in s.maplink
    ensures s.maplink[h] == h - 1 < |s.links| && AfterClosed(h - 1) !in s.stack
  {
    assert LinkSound(s, h - 1);
  }

  lemma CallKeepsSound(s: State, l: Label)
    requires Sound(s) && Enabled(s, l) && (l.Create? || l.Destroy? || l.Connect? || l.Listen?)
    ensures Sound(Step(s, l))
  {
    hide SocketsSound, HandlesSound, AttachedSound, ShapeSound, LinkDestroy;
    match l
    case Create(made) =>
      if made.Created? {
        AddKeepsSound(s, made.fd, Null);
        var s1 := AddTcpLink(s, made.fd, Null);
        PushKeepsSound(s1, AfterCreated(|s.links|));
        EmitKeepsSound(Push(s1, AfterCreated(|s.links|)));
      }
    case Destroy(h) =>
      if h in s.maplink {
        RegisteredIsLiveOrClosed(s, h);
        DestroyKeepsSound(s, h - 1, true);
      }
    case Connect(h, result) =>
      if h in s.maplink && !result.NoAddress? {
        RegisteredIsLiveOrClosed(s, h);
        SetKindKeepsSound(s, h - 1, Connecting);
        var s1 := SetKind(s, h - 1, Connecting);
        if result.Connects? {
          PushKeepsSound(s1, AfterConnected(h - 1));
          EmitKeepsSound(Push(s1, AfterConnected(h - 1)));
        } else {
          RefusalKeepsSound(s1, h - 1);
          EmitKeepsSound(SetSocket(CloseSocket(s1, h - 1), h - 1, -1));
        }
      }
    case Listen(h, backlog, _, attach) =>
      if h in s.maplink && backlog > 0 {
        RegisteredIsLiveOrClosed(s, h);
        SetKindKeepsSound(s, h - 1, Listening);
        AttachKeepsSound(SetKind(s, h - 1, Listening), h - 1);
      }
  }

  lemma WorkerKeepsSound(s: State, l: Label)
    requires Sound(s) && Enabled(s, l)
    requires l.Poll? || l.Event? || l.FreeAll? || l.Return? || l.FinishKeepAlive? || l.FinishRead?
    ensures Sound(Step(s, l))
  {
    hide SocketsSound, HandlesSound, AttachedSound, ShapeSound;
    match l
    case Poll =>
      var s1 := s.(dispatching := true);
      FlagsKeepSound(s, s1);
      PushKeepsSound(s1, AfterKeepAlive);
      EmitKeepsSound(Push(s1, AfterKeepAlive));
      FlagsKeepSound(s, s.(dispatching := false));
      FlagsKeepSound(s, s.(dispatching := true, keepAlive := CountTurn(s.keepAlive)));
    case Event(n, flags) => DispatchKeepsSound(s, s.attached[n].data, flags);
    case FreeAll => PushKeepsSound(s, Freeing(ByHandle(s.maplink, |s.links|)));
    case Return => PopKeepsSound(s);
    case FinishKeepAlive =>
      PopKeepsSound(s);
      FlagsKeepSound(Pop(s), Step(s, l));
    case FinishRead =>
      PopKeepsSound(s);
      EmitKeepsSound(Pop(s));
  }

  lemma DispatchKeepsSound(s: State, data: EpollData, flags: Flags)
    requires Sound(s) && s.stack == []
    ensures Sound(Dispatch(s, data, flags))
  {
    hide SocketsSound, HandlesSound, AttachedSound, ShapeSound;
    var h := HandleOf(data);
    if h in s.maplink {
      var id := s.maplink[h];
      PushKeepsSound(s, AfterDisconnected(id));
      EmitKeepsSound(Push(s, AfterDisconnected(id)));
      PushKeepsSound(s, Accepting(id));
      SetKindKeepsSound(s, id, Connected);
      PushKeepsSound(s, Reading(id));
      EmitKeepsSound(Push(s, Reading(id)));
    }
  }

  /** When a worker's frame is on top, it is the whole stack: no link is halfway through being closed. */
  lemma WorkerAlone(s: State)
    requires Sound(s) && s.stack != [] && OfWorker(s.stack[0])
    ensures s.stack == [s.stack[0]] && Pop(s).stack == [] && forall id :: AfterClosed(id) !in s.stack
  {
  }

  lemma ContinueKeepsSound(s: State, l: Label)
    requires Sound(s) && Enabled(s, l)
    requires l.FinishClosed? || l.FinishCreated? || l.FinishConnected? || l.FinishDisconnected?
    ensures Sound(Step(s, l))
  {
    var top := s.stack[0];
    assert FrameInBounds(top, |s.links|);
    hide SocketsSound, AttachedSound, ShapeSound, LinkDestroy;
    match l
    case FinishClosed => FinishKeepsSound(s);
    case FinishCreated =>
      PopKeepsSound(s);
      FlagsKeepSound(Pop(s), Step(s, l));
    case FinishConnected(_) =>
      PopKeepsSound(s);
      AttachKeepsSound(Pop(s), top.id);
    case FinishDisconnected =>
      WorkerAlone(s);
      PopKeepsSound(s);
      DestroyKeepsSound(Pop(s), top.id, false);
  }

  lemma LoopsKeepSound(s: State, l: Label)
    requires Sound(s) && Enabled(s, l) && (l.Accept? || l.Read? || l.FreeNext?)
    ensures Sound(Step(s, l))
  {
    WorkerAlone(s);
    var top := s.stack[0];
    assert FrameInBounds(top, |s.links|);
    PopKeepsSound(s);
    hide SocketsSound, AttachedSound, ShapeSound, HandlesSound, LinkDestroy;
    match l
    case Accept(taken) => if taken.Accepts? { AcceptKeepsSound(s, taken.fd); }
    case Read(got) => ReadKeepsSound(s, got);
    case FreeNext =>
      if top.todo != [] {
        assert top.todo[0] in top.todo && forall id :: id in top.todo[1..] ==> id in top.todo;
        PushKeepsSound(Pop(s), Freeing(top.todo[1..]));
        DestroyKeepsSound(Push(Pop(s), Freeing(top.todo[1..])), top.todo[0], true);
      }
  }

  lemma ReadKeepsSound(s: State, got: Reception)
    requires Sound(s) && Enabled(s, Read(got))
    ensures Sound(Step(s, Read(got)))
  {
    WorkerAlone(s);
    var id := s.stack[0].id;
    assert FrameInBounds(s.stack[0], |s.links|);
    PopKeepsSound(s);
    hide SocketsSound, AttachedSound, ShapeSound, HandlesSound, LinkDestroy;
    match got
    case Data => EmitKeepsSound(s);
    case Error => EmitKeepsSound(Pop(s));
    case Interrupted(_) =>
      EmitKeepsSound(Pop(s));
      RearmKeepsSound(Pop(s), id);
    case Ends =>
      PushKeepsSound(Pop(s), AfterRead(id));
      DestroyKeepsSound(Push(Pop(s), AfterRead(id)), id, true);
  }

  /** The new registration after an interrupted read is one for the link itself. */
  lemma RearmKeepsSound(s: State, id: Id)
    requires Sound(s) && id < |s.links|
    ensures Sound(Emit(Attach(s, id, s.links[id].handle)))
  {
    AttachKeepsSound(s, id);
    EmitKeepsSound(Attach(s, id, id + 1));
  }

  lemma AcceptKeepsSound(s: State, fd: Descriptor)
    requires Sound(s) && fd !in s.descriptors && |s.links| + 1 < 0x8000_0000
    ensures Sound(AddTcpLink(s, fd, Accepted))
    ensures Sound(Emit(Attach(AddTcpLink(s, fd, Accepted), |s.links|, |s.links| + 1)))
  {
    hide Sound;
    AddKeepsSound(s, fd, Accepted);
    AttachKeepsSound(AddTcpLink(s, fd, Accepted), |s.links|);
    EmitKeepsSound(Attach(AddTcpLink(s, fd, Accepted), |s.links|, |s.links| + 1));
  }

  lemma StepKeepsSound(s: State, l: Label)
    requires Sound(s) && Enabled(s, l)
    ensures Sound(Step(s, l))
  {
    if l.Accept? || l.Read? || l.FreeNext? {
      LoopsKeepSound(s, l);
    } else if Continuation(l) {
      ContinueKeepsSound(s, l);
    } else if l.Create? || l.Destroy? || l.Connect? || l.Listen? {
      CallKeepsSound(s, l);
    } else {
      WorkerKeepsSound(s, l);
    }
  }

  lemma {:induction false} RunKeepsSound(s: State, ls: seq<Label>)
    requires Sound(s) && Legal(s, ls)
    ensures Sound(Run(s, ls))
    decreases |ls|
  {
    if ls != [] {
      StepKeepsSound(s, ls[0]);
      RunKeepsSound(Step(s, ls[0]), ls[1..]);
    }
  }

  // ---- What that means ----

  lemma RunSound(ls: seq<Label>)
    requires Legal(INIT, ls)
    ensures Sound(Run(INIT, ls))
  {
    assert Sound(INIT);
    RunKeepsSound(INIT, ls);
  }

  /** Whatever the callbacks do, a link's socket is closed at most once and CLOSED sent at most once, and
      only for a socket that was closed. */
  lemma ClosedAtMostOnce(ls: seq<Label>, id: Id)
    requires Legal(INIT, ls) && id < |Run(INIT, ls).links|
    ensures Run(INIT, ls).links[id].closedEvents <= Run(INIT, ls).links[id].closes <= 1
  {
    RunSound(ls);
    assert LinkSound(Run(INIT, ls), id);
  }

  /** No descriptor leaks and none is shared: every open one belongs to exactly one link, and that link can
      be found. The link map and the socket map always have the same keys. */
  lemma DescriptorsHaveOneOwner(ls: seq<Label>, fd: Descriptor) returns (id: Id)
    requires Legal(INIT, ls) && fd in Run(INIT, ls).descriptors
    ensures var s := Run(INIT, ls);
      && Live(s, id) && s.links[id].socket == fd
      && id + 1 in s.maplink && s.maplink[id + 1] == id
      && (forall other: Id :: Live(s, other) && s.links[other].socket == fd ==> other == id)
      && s.maplink.Keys == s.socketMap.Keys
  {
    RunSound(ls);
    var s := Run(INIT, ls);
    assert Owned(s, fd);
    id :| Live(s, id) && s.links[id].socket == fd;
    assert LinkSound(s, id);
  }

  /** A step only takes handles away, or adds the next one. */
  predicate MapsShrink(s: State, s': State, added: bool) {
    && |s.links| <= |s'.links|
    && (forall h :: h in s'.maplink ==>
          (h in s.maplink && s'.maplink[h] == s.maplink[h]) || (added && h == |s.links| + 1))
  }

  lemma DestroyShrinks(s: State, id: Id, self: bool)
    requires InBounds(s) && id < |s.links|
    ensures MapsShrink(s, LinkDestroy(s, id, self), false)
    ensures var s' := LinkDestroy(s, id, self); s'.stack == s.stack || s'.stack == [Callback, AfterClosed(id)] + s.stack
  {
  }

  lemma TodoInBounds(s: State, todo: seq<Id>)
    requires InBounds(s) && s.stack != [] && s.stack[0] == Freeing(todo) && todo != []
    ensures todo[0] < |s.links| && InBounds(Push(Pop(s), Freeing(todo[1..])))
  {
    assert FrameInBounds(s.stack[0], |s.links|);
    assert todo[0] in todo && forall id :: id in todo[1..] ==> id in todo;
  }

  lemma ContinueShrinks(s: State, l: Label)
    requires InBounds(s) && Enabled(s, l) && Continuation(l)
    ensures MapsShrink(s, Step(s, l), Registers(l))
  {
    var top := s.stack[0];
    assert FrameInBounds(top, |s.links|);
    hide LinkDestroy;
    match l
    case FinishDisconnected => DestroyShrinks(Pop(s), top.id, false);
    case Read(got) => if got.Ends? { DestroyShrinks(Push(Pop(s), AfterRead(top.id)), top.id, true); }
    case FreeNext => if top.todo != [] {
      TodoInBounds(s, top.todo);
      DestroyShrinks(Push(Pop(s), Freeing(top.todo[1..])), top.todo[0], true);
    }
    case _ =>
  }

  lemma StepShrinks(s: State, l: Label)
    requires InBounds(s) && Enabled(s, l)
    ensures MapsShrink(s, Step(s, l), Registers(l))
  {
    if Continuation(l) {
      ContinueShrinks(s, l);
    } else {
      hide LinkDestroy;
      if l.Destroy? && l.h in s.maplink {
        DestroyShrinks(s, s.maplink[l.h], true);
      }
    }
  }

  predicate Registers(l: Label) {
    (l.Create? && l.made.Created?) || (l.Accept? && l.taken.Accepts?)
  }

  lemma StepForgets(s: State, l: Label, h: Handle)
    requires Sound(s) && Enabled(s, l) && h <= |s.links| && h !in s.maplink
    ensures h <= |Step(s, l).links| && h !in Step(s, l).maplink
  {
    hide Step, Enabled;
    StepShrinks(s, l);
  }

  /** A handle that is not registered any more is never found again, in any continuation of the run. */
  lemma {:induction false} DestroyedIsNeverFound(s: State, ls: seq<Label>, h: Handle)
    requires Sound(s) && Legal(s, ls) && h <= |s.links| && h !in s.maplink
    ensures h !in Run(s, ls).maplink
    decreases |ls|
  {
    if ls != [] {
      StepForgets(s, ls[0], h);
      StepKeepsSound(s, ls[0]);
      DestroyedIsNeverFound(Step(s, ls[0]), ls[1..], h);
    }
  }

  lemma DestroyForgets(s: State, h: Handle)
    requires Sound(s) && Free(s)
    ensures h !in Step(s, Destroy(h)).maplink
  {
  }

  /** An event, however late, finds the link its registration was made for or none, even if the descriptor
      now belongs to another link. */
  lemma EventsReachTheirLink(ls: seq<Label>, a: Attachment)
    requires Legal(INIT, ls) && a in Run(INIT, ls).attached
    ensures var s := Run(INIT, ls); HandleOf(a.data) in s.maplink ==> s.maplink[HandleOf(a.data)] == a.id
  {
    RunSound(ls);
  }

  // ---- free_all_link_map ----

  /** Nothing is registered, or whatever is registered is still on the list free_all_link_map works through. */
  predicate Covered(s: State) {
    || s.maplink == map[]
    || (s.stack != [] && s.stack[|s.stack| - 1].Freeing?
        && forall h :: h in s.maplink ==> s.maplink[h] in s.stack[|s.stack| - 1].todo)
  }

  /** Calls made from callbacks, and their ends, leave the bottom of the stack alone. */
  lemma BottomStays(s: State, l: Label)
    requires Sound(s) && Enabled(s, l) && s.stack != [] && s.stack[|s.stack| - 1].Freeing? && !l.FreeNext?
    ensures Step(s, l).stack != [] && Step(s, l).stack[|Step(s, l).stack| - 1] == s.stack[|s.stack| - 1]
  {
    if Continuation(l) {
      EndsLeaveBottom(s, l);
    } else if l.Destroy? {
      if l.h in s.maplink { DestroyShrinks(s, s.maplink[l.h], true); }
    } else {
      CallsLeaveBottom(s, l);
    }
  }

  lemma EndsLeaveBottom(s: State, l: Label)
    requires InBounds(s) && ShapeSound(s) && Enabled(s, l) && Continuation(l) && !l.FreeNext?
    requires s.stack[|s.stack| - 1].Freeing?
    ensures Step(s, l).stack == s.stack[1..] && Step(s, l).stack != []
  {
    assert FrameInBounds(s.stack[0], |s.links|);
    assert l.FinishClosed? || l.FinishCreated? || l.FinishConnected?;
    assert Step(s, l) == Continue(s, l);
  }

  lemma CallsLeaveBottom(s: State, l: Label)
    requires InBounds(s) && ShapeSound(s) && Enabled(s, l) && !Continuation(l) && !l.Destroy?
    requires s.stack != [] && s.stack[|s.stack| - 1].Freeing?
    ensures Step(s, l).stack != [] && Step(s, l).stack[|Step(s, l).stack| - 1] == s.stack[|s.stack| - 1]
  {
  }

  lemma DestroyForgetsId(s: State, id: Id, self: bool)
    requires InBounds(s) && HandlesSound(s) && id < |s.links|
    ensures forall h :: h in LinkDestroy(s, id, self).maplink ==> s.maplink[h] != id
  {
  }

  lemma FreeNextCovers(s: State)
    requires Sound(s) && Enabled(s, FreeNext) && Covered(s)
    ensures Covered(Step(s, FreeNext))
  {
    WorkerAlone(s);
    var todo := s.stack[0].todo;
    if todo != [] {
      TodoInBounds(s, todo);
      var s1 := Push(Pop(s), Freeing(todo[1..]));
      FreeOneCovers(s, s1, todo);
    }
  }

  lemma FreeOneCovers(s: State, s1: State, todo: seq<Id>)
    requires todo != [] && InBounds(s1) && HandlesSound(s1) && todo[0] < |s1.links| && s1.stack == [Freeing(todo[1..])]
    requires s1.maplink == s.maplink && forall h :: h in s.maplink ==> s.maplink[h] in todo
    ensures Covered(LinkDestroy(s1, todo[0], true))
  {
    hide LinkDestroy;
    DestroyShrinks(s1, todo[0], true);
    DestroyForgetsId(s1, todo[0], true);
    assert todo == [todo[0]] + todo[1..];
  }

  lemma StepKeepsCovered(s: State, l: Label)
    requires Sound(s) && Enabled(s, l) && !Registers(l) && Covered(s)
    ensures Covered(Step(s, l))
  {
    if l.FreeNext? {
      FreeNextCovers(s);
    } else {
      if s.maplink != map[] { BottomStays(s, l); }
      hide Step, Enabled, Sound;
      StepShrinks(s, l);
    }
  }

  lemma {:induction false} RunKeepsCovered(s: State, ls: seq<Label>)
    requires Sound(s) && Legal(s, ls) && Covered(s) && forall l :: l in ls ==> !Registers(l)
    ensures Covered(Run(s, ls))
    decreases |ls|
  {
    if ls != [] {
      assert ls[0] in ls;
      StepKeepsCovered(s, ls[0]);
      StepKeepsSound(s, ls[0]);
      RunKeepsCovered(Step(s, ls[0]), ls[1..]);
    }
  }

  /** When free_all_link_map is over, nothing is registered and no descriptor is open, provided the callbacks
      it ran registered no link. */
  lemma FreeAllEmpties(s: State, ls: seq<Label>)
    requires Sound(s) && s.stack == [] && Legal(s, [FreeAll] + ls) && forall l :: l in ls ==> !Registers(l)
    ensures Run(s, [FreeAll] + ls).stack == [] ==>
      Run(s, [FreeAll] + ls).maplink == map[] && Run(s, [FreeAll] + ls).descriptors == {}
  {
    var s1 := Step(s, FreeAll);
    StepKeepsSound(s, FreeAll);
    assert ([FreeAll] + ls)[1..] == ls;
    assert Covered(s1) by {
      assert s1.stack[|s1.stack| - 1] == Freeing(ByHandle(s.maplink, |s.links|));
    }
    RunKeepsCovered(s1, ls);
    RunKeepsSound(s1, ls);
    OpenMeansRegistered(Run(s1, ls));
  }

  lemma OpenMeansRegistered(s: State)
    requires Sound(s)
    ensures s.descriptors != {} ==> s.maplink != map[]
  {
    if s.descriptors != {} {
      var fd :| fd in s.descriptors;
      assert Owned(s, fd);
      var id: Id :| Live(s, id) && s.links[id].socket == fd;
      assert LinkSound(s, id);
    }
  }

  // ---- The first handle ----

  /** The handle the worker's keep-alive looks up is none or a registered one. */
  predicate FirstSound(s: State) {
    s.first == INVALID || s.first in s.maplink
  }

  /** ms_tcp_create records the first handle after its callback, without looking whether the callback has
      destroyed the link. */
  predicate RecordsStale(s: State, l: Label)
    requires InBounds(s) && Enabled(s, l)
  {
    l.FinishCreated? && s.first == INVALID && s.stack[0].id + 1 !in s.maplink
  }

  lemma DestroyKeepsFirst(s: State, id: Id, self: bool)
    requires InBounds(s) && HandlesSound(s) && id < |s.links| && FirstSound(s)
    ensures FirstSound(LinkDestroy(s, id, self))
  {
  }

  lemma ContinueKeepsFirst(s: State, l: Label)
    requires Sound(s) && Enabled(s, l) && FirstSound(s) && Continuation(l) && !l.FinishCreated?
    ensures FirstSound(Step(s, l))
  {
    var top := s.stack[0];
    assert FrameInBounds(top, |s.links|);
    hide LinkDestroy, SocketsSound, AttachedSound, ShapeSound;
    match l
    case FinishDisconnected => DestroyKeepsFirst(Pop(s), top.id, false);
    case Read(got) => if got.Ends? { DestroyKeepsFirst(Push(Pop(s), AfterRead(top.id)), top.id, true); }
    case FreeNext => if top.todo != [] {
      TodoInBounds(s, top.todo);
      DestroyKeepsFirst(Push(Pop(s), Freeing(top.todo[1..])), top.todo[0], true);
    }
    case _ =>
  }

  /** That is the one step that breaks it. */
  lemma FirstSoundExactly(s: State, l: Label)
    requires Sound(s) && Enabled(s, l) && FirstSound(s)
    ensures FirstSound(Step(s, l)) <==> !RecordsStale(s, l)
  {
    if l.FinishCreated? {
      assert FrameInBounds(s.stack[0], |s.links|);
    } else if Continuation(l) {
      ContinueKeepsFirst(s, l);
    } else {
      hide LinkDestroy, SocketsSound;
      if l.Destroy? && l.h in s.maplink { DestroyKeepsFirst(s, s.maplink[l.h], true); }
    }
  }

  /** A frame of the worker, or of free_all_link_map, that has nothing to do with the link. */
  predicate NotAbout(f: Frame, id: Id) {
    match f
    case AfterDisconnected(j) => j != id
    case Accepting(j) => j != id
    case Reading(j) => j != id
    case AfterRead(j) => j != id
    case Freeing(todo) => id !in todo
    case _ => true
  }

  /** The worker never works on a link that is still being created. */
  predicate NewLinksApart(s: State) {
    forall f, g :: f in s.stack && g in s.stack && f.AfterCreated? ==> NotAbout(g, f.id)
  }

  lemma DestroyKeepsApart(s: State, id: Id, self: bool)
    requires InBounds(s) && NewLinksApart(s) && id < |s.links|
    ensures NewLinksApart(LinkDestroy(s, id, self))
  {
    hide LinkDestroy;
    DestroyShrinks(s, id, self);
  }

  lemma CreateKeepsApart(s: State, made: Creation)
    requires InBounds(s) && NewLinksApart(s) && Enabled(s, Create(made))
    ensures NewLinksApart(Step(s, Create(made)))
  {
    assert forall g :: g in s.stack ==> FrameInBounds(g, |s.links|);
  }

  lemma WorkerKeepsApart(s: State, l: Label)
    requires Sound(s) && NewLinksApart(s) && Enabled(s, l)
    requires l.Accept? || l.Read? || l.FreeNext? || l.FinishDisconnected?
    ensures NewLinksApart(Step(s, l))
  {
    WorkerAlone(s);
    var top := s.stack[0];
    assert FrameInBounds(top, |s.links|);
    hide LinkDestroy, SocketsSound, HandlesSound, AttachedSound;
    match l
    case FinishDisconnected => DestroyKeepsApart(Pop(s), top.id, false);
    case Read(got) => if got.Ends? { DestroyKeepsApart(Push(Pop(s), AfterRead(top.id)), top.id, true); }
    case FreeNext => if top.todo != [] {
      TodoInBounds(s, top.todo);
      DestroyKeepsApart(Push(Pop(s), Freeing(top.todo[1..])), top.todo[0], true);
    }
    case Accept(_) =>
  }

  lemma StepKeepsApart(s: State, l: Label)
    requires Sound(s) && NewLinksApart(s) && Enabled(s, l)
    ensures NewLinksApart(Step(s, l))
  {
    if l.Accept? || l.Read? || l.FreeNext? || l.FinishDisconnected? {
      WorkerKeepsApart(s, l);
    } else if l.Create? {
      CreateKeepsApart(s, l.made);
    } else if l.Destroy? {
      if l.h in s.maplink { DestroyKeepsApart(s, s.maplink[l.h], true); }
    } else {
      FramesKeepApart(s, l);
    }
  }

  lemma FramesKeepApart(s: State, l: Label)
    requires InBounds(s) && NewLinksApart(s) && Enabled(s, l) && !l.Create? && !l.Destroy?
    requires !(l.Accept? || l.Read? || l.FreeNext? || l.FinishDisconnected?)
    ensures NewLinksApart(Step(s, l))
  {
    if Continuation(l) {
      EndsKeepApart(s, l);
    } else {
      hide NewLinksApart, NotAbout;
      FramesAfter(s, l);
      ApartAfter(s, Step(s, l));
    }
  }

  predicate NewFrames(s: State, s': State) {
    forall f :: f in s'.stack ==> f in s.stack || (!OfWorker(f) && !f.AfterCreated?) || s.stack == []
  }

  lemma FramesAfter(s: State, l: Label)
    requires InBounds(s) && Enabled(s, l) && !l.Create? && !l.Destroy? && !Continuation(l)
    ensures NewFrames(s, Step(s, l))
    ensures s.stack == [] ==> forall f :: f in Step(s, l).stack ==> !f.AfterCreated?
  {
  }

  lemma ApartAfter(s: State, s': State)
    requires NewLinksApart(s) && NewFrames(s, s')
    requires s.stack == [] ==> forall f :: f in s'.stack ==> !f.AfterCreated?
    ensures NewLinksApart(s')
  {
  }

  lemma EndsKeepApart(s: State, l: Label)
    requires InBounds(s) && NewLinksApart(s) && Enabled(s, l)
    requires l.FinishClosed? || l.FinishCreated? || l.FinishConnected?
    ensures NewLinksApart(Step(s, l))
  {
    assert FrameInBounds(s.stack[0], |s.links|);
    var s' := Step(s, l);
    assert s' == Continue(s, l) && s'.stack == s.stack[1..];
    assert forall f :: f in s.stack[1..] ==> f in s.stack;
    hide NewLinksApart, NotAbout;
    ApartAfter(s, s');
  }

  /** The first handle is stale, and nothing under way is about its link. */
  predicate Stale(s: State) {
    && s.first != INVALID && 0 < s.first <= |s.links| && s.first !in s.maplink
    && forall f :: f in s.stack ==> NotAbout(f, s.first - 1)
  }

  /** The worker has skipped a turn because of that, and has nothing left to do. */
  predicate Stuck(s: State) {
    && Stale(s) && s.keepAlive % 10 == 0 && !s.dispatching
    && forall f :: f in s.stack && OfWorker(f) ==> f.Freeing?
  }

  lemma RecordingIsStale(s: State, l: Label)
    requires Sound(s) && NewLinksApart(s) && Enabled(s, l) && RecordsStale(s, l)
    ensures Stale(Step(s, l))
  {
    assert FrameInBounds(s.stack[0], |s.links|);
    var s', id := Step(s, l), s.stack[0].id;
    assert s' == Continue(s, l) == Pop(s).(first := s.links[id].handle);
    forall f | f in s'.stack ensures NotAbout(f, id) {
      assert f in s.stack && s.stack[0] in s.stack;
    }
  }

  lemma DestroyKeepsStale(s: State, id: Id, self: bool)
    requires InBounds(s) && HandlesSound(s) && Stale(s) && id < |s.links| && id != s.first - 1
    ensures Stale(LinkDestroy(s, id, self)) && (Stuck(s) ==> Stuck(LinkDestroy(s, id, self)))
    ensures var s' := LinkDestroy(s, id, self);
      s'.first == s.first && s'.keepAlive == s.keepAlive && s'.dispatching == s.dispatching
      && (AfterKeepAlive in s'.stack <==> AfterKeepAlive in s.stack)
  {
    DestroyedFields(s, id, self);
    hide LinkDestroy;
  }

  /** What destroying another link leaves as it is. */
  lemma DestroyedFields(s: State, id: Id, self: bool)
    requires InBounds(s) && HandlesSound(s) && id < |s.links| && id + 1 != s.first
    ensures var s' := LinkDestroy(s, id, self);
      && s'.first == s.first && s'.keepAlive == s.keepAlive && s'.dispatching == s.dispatching
      && s'.maplink.Keys <= s.maplink.Keys
      && (s'.stack == s.stack || s'.stack == [Callback, AfterClosed(id)] + s.stack)
  {
  }

  /** How many turns the worker may still take before it is stuck. A keep-alive under way counts its turn later. */
  function TurnsLeft(s: State): (n: nat)
    ensures n <= 10
  {
    if Stuck(s) then 0
    else if AfterKeepAlive in s.stack then 10
    else (10 - s.keepAlive % 10) % 10 + 1
  }

  predicate CountsDown(s: State, s': State, turn: bool) {
    && Stale(s') && s'.first == s.first
    && TurnsLeft(s') <= TurnsLeft(s)
    && (turn && 0 < TurnsLeft(s) ==> TurnsLeft(s') < TurnsLeft(s))
  }

  /** A step that neither starts a worker's frame nor ends a keep-alive leaves the countdown alone. */
  lemma SameCountsDown(s: State, s': State)
    requires Stale(s) && s'.first == s.first && |s.links| <= |s'.links| && s.first !in s'.maplink
    requires s'.keepAlive == s.keepAlive && s'.dispatching == s.dispatching
    requires AfterKeepAlive in s'.stack <==> AfterKeepAlive in s.stack
    requires forall f :: f in s'.stack ==> NotAbout(f, s.first - 1)
    requires Stuck(s) ==> forall f :: f in s'.stack && OfWorker(f) ==> f.Freeing?
    ensures CountsDown(s, s', false)
  {
  }

  lemma DestroyCountsDown(s: State, s1: State, id: Id, self: bool)
    requires Sound(s) && Stale(s) && s1 == s.(stack := s1.stack) && InBounds(s1)
    requires id < |s.links| && id != s.first - 1
    requires AfterKeepAlive in s1.stack <==> AfterKeepAlive in s.stack
    requires forall f :: f in s1.stack ==> NotAbout(f, s.first - 1)
    requires Stuck(s) ==> forall f :: f in s1.stack && OfWorker(f) ==> f.Freeing?
    ensures CountsDown(s, LinkDestroy(s1, id, self), false)
  {
    SameCountsDown(s, s1);
    DestroyKeepsStale(s1, id, self);
    hide LinkDestroy, Sound;
  }

  lemma WorkerCountsDown(s: State, l: Label)
    requires Sound(s) && Stale(s) && Enabled(s, l) && (l.FinishDisconnected? || l.FreeNext? || (l.Read? && l.got.Ends?))
    ensures CountsDown(s, Step(s, l), false)
  {
    WorkerAlone(s);
    var top := s.stack[0];
    assert FrameInBounds(top, |s.links|) && top in s.stack;
    hide LinkDestroy, SocketsSound, HandlesSound, AttachedSound, ShapeSound, CountsDown;
    match l
    case FinishDisconnected => DestroyCountsDown(s, Pop(s), top.id, false);
    case Read(got) => DestroyCountsDown(s, Push(Pop(s), AfterRead(top.id)), top.id, true);
    case FreeNext =>
      if top.todo == [] {
        SameCountsDown(s, Pop(s));
      } else {
        TodoInBounds(s, top.todo);
        assert top.todo[0] in top.todo && forall id :: id in top.todo[1..] ==> id in top.todo;
        DestroyCountsDown(s, Push(Pop(s), Freeing(top.todo[1..])), top.todo[0], true);
      }
  }

  lemma LoopCountsDown(s: State, l: Label)
    requires Sound(s) && Stale(s) && Enabled(s, l)
    requires l.Accept? || (l.Read? && !l.got.Ends?)
    ensures CountsDown(s, Step(s, l), false)
  {
    WorkerAlone(s);
    assert FrameInBounds(s.stack[0], |s.links|) && s.stack[0] in s.stack;
    hide SocketsSound, HandlesSound, AttachedSound, ShapeSound;
  }

  lemma FinishCountsDown(s: State, l: Label)
    requires Sound(s) && Stale(s) && Enabled(s, l)
    requires l.FinishKeepAlive? || l.FinishRead?
    ensures CountsDown(s, Step(s, l), false)
  {
    WorkerAlone(s);
    assert FrameInBounds(s.stack[0], |s.links|) && s.stack[0] in s.stack;
    hide SocketsSound, HandlesSound, AttachedSound, ShapeSound;
  }

  lemma StepCountsDown(s: State, l: Label)
    requires Sound(s) && Stale(s) && Enabled(s, l)
    ensures CountsDown(s, Step(s, l), l.Poll?)
  {
    if l.FinishDisconnected? || l.FreeNext? || (l.Read? && l.got.Ends?) {
      WorkerCountsDown(s, l);
    } else if l.Accept? || l.Read? {
      LoopCountsDown(s, l);
    } else if l.FinishKeepAlive? || l.FinishRead? {
      FinishCountsDown(s, l);
    } else {
      hide LinkDestroy, SocketsSound, AttachedSound;
      match l
      case Destroy(h) => if h in s.maplink { DestroyCountsDown(s, s, h - 1, true); }
      case FreeAll => assert s.first - 1 !in s.maplink.Values;
      case Poll => PollCountsDown(s);
      case Event(_, _) => EventCountsDown(s, l);
      case _ => FramesCountDown(s, l);
    }
  }

  lemma PollCountsDown(s: State)
    requires InBounds(s) && Stale(s) && Enabled(s, Poll)
    ensures CountsDown(s, Step(s, Poll), true)
  {
    if s.keepAlive % 10 != 0 {
      TurnCounts(s.keepAlive);
    }
  }

  lemma TurnCounts(k: nat)
    requires k % 10 != 0
    ensures (10 - CountTurn(k) % 10) % 10 + 1 <= 10 - k % 10
  {
  }

  /** Calls of the application other than destructions, and their ends, leave the worker's frames alone. */
  lemma CallsMoveNoWorker(s: State, l: Label)
    requires InBounds(s) && Enabled(s, l) && (l.Create? || l.Connect? || l.Listen? || l.Return?)
    ensures SameWork(s, Step(s, l))
  {
  }

  lemma EndsMoveNoWorker(s: State, l: Label)
    requires InBounds(s) && Enabled(s, l) && (l.FinishClosed? || l.FinishConnected?)
    ensures SameWork(s, Step(s, l))
  {
    assert FrameInBounds(s.stack[0], |s.links|);
    assert Step(s, l) == Continue(s, l);
  }

  lemma CreatedMovesNoWorker(s: State)
    requires InBounds(s) && Enabled(s, FinishCreated) && s.first != INVALID
    ensures SameWork(s, Step(s, FinishCreated))
  {
    assert FrameInBounds(s.stack[0], |s.links|);
    assert Step(s, FinishCreated) == Continue(s, FinishCreated);
  }

  ghost predicate SameWork(s: State, s': State) {
    && s'.first == s.first && s'.keepAlive == s.keepAlive && s'.dispatching == s.dispatching
    && forall f :: OfWorker(f) ==> (f in s'.stack <==> f in s.stack)
  }

  lemma FramesCountDown(s: State, l: Label)
    requires Sound(s) && Stale(s) && Enabled(s, l)
    requires l.Create? || l.Connect? || l.Listen? || l.Return?
             || l.FinishClosed? || l.FinishCreated? || l.FinishConnected?
    ensures CountsDown(s, Step(s, l), false)
  {
    StepShrinks(s, l);
    if l.FinishCreated? {
      CreatedMovesNoWorker(s);
    } else if Continuation(l) {
      EndsMoveNoWorker(s, l);
    } else {
      CallsMoveNoWorker(s, l);
    }
    hide Sound, Step, Enabled;
    SameCountsDown(s, Step(s, l));
  }

  lemma EventCountsDown(s: State, l: Label)
    requires Sound(s) && Stale(s) && Enabled(s, l) && l.Event?
    ensures CountsDown(s, Step(s, l), false)
  {
    hide SocketsSound, AttachedSound, ShapeSound;
  }

  function Turns(ls: seq<Label>): nat {
    if ls == [] then 0 else (if ls[0].Poll? then 1 else 0) + Turns(ls[1..])
  }

  /** A stale first handle stays, in every continuation, and after ten turns at most the worker is stuck. */
  lemma {:induction false} StaleForever(s: State, ls: seq<Label>)
    requires Sound(s) && Stale(s) && Legal(s, ls)
    ensures Stale(Run(s, ls)) && Run(s, ls).first == s.first
    ensures TurnsLeft(s) <= Turns(ls) ==> Stuck(Run(s, ls))
    decreases |ls|
  {
    hide Stale, Stuck, Step, Enabled;
    if ls != [] {
      StepCountsDown(s, ls[0]);
      StepKeepsSound(s, ls[0]);
      StaleForever(Step(s, ls[0]), ls[1..]);
    } else {
      NoTurnsLeft(s);
    }
  }

  lemma NoTurnsLeft(s: State)
    ensures TurnsLeft(s) == 0 ==> Stuck(s)
  {
  }

  lemma StuckHasNoEvent(s: State, l: Label)
    requires InBounds(s) && Enabled(s, l) && Stuck(s)
    ensures !l.Event? && TurnsLeft(s) == 0
  {
  }

  /** From then on no event is ever dispatched again, whatever the application does. */
  lemma {:induction false} StuckForever(s: State, ls: seq<Label>)
    requires Sound(s) && Stuck(s) && Legal(s, ls)
    ensures forall l :: l in ls ==> !l.Event?
    decreases |ls|
  {
    if ls != [] {
      StuckHasNoEvent(s, ls[0]);
      StepCountsDown(s, ls[0]);
      NoTurnsLeft(Step(s, ls[0]));
      StepKeepsSound(s, ls[0]);
      StuckForever(Step(s, ls[0]), ls[1..]);
      assert ls == [ls[0]] + ls[1..];
    }
  }

  /** It happens: a link that is destroyed from its own CREATED callback. */
  lemma StaleFirstHappens(fd: Descriptor) returns (ls: seq<Label>)
    ensures Legal(INIT, ls) && Sound(Run(INIT, ls)) && Stuck(Run(INIT, ls)) && Run(INIT, ls).stack == []
  {
    var s1 := Step(INIT, Create(Created(fd)));
    var s2 := Step(s1, Destroy(1));
    assert s2.stack == [Callback, AfterClosed(0), Callback, AfterCreated(0)];
    RunOne(INIT, Create(Created(fd)));
    RunExtends(INIT, [Create(Created(fd))], Destroy(1));
    ls := [Create(Created(fd))] + [Destroy(1)];
    RunExtends(INIT, ls, Return);
    ls := ls + [Return];
    RunExtends(INIT, ls, FinishClosed);
    ls := ls + [FinishClosed];
    RunExtends(INIT, ls, Return);
    ls := ls + [Return];
    RunExtends(INIT, ls, FinishCreated);
    ls := ls + [FinishCreated];
    RunSound(ls);
  }

  lemma {:induction false} RunKeepsApart(s: State, ls: seq<Label>)
    requires Sound(s) && NewLinksApart(s) && Legal(s, ls)
    ensures NewLinksApart(Run(s, ls))
    decreases |ls|
  {
    hide NewLinksApart, HandlesSound, SocketsSound, ShapeSound, AttachedSound, Enabled, Step;
    if ls != [] {
      StepKeepsApart(s, ls[0]);
      StepKeepsSound(s, ls[0]);
      RunKeepsApart(Step(s, ls[0]), ls[1..]);
    }
  }

  /** In every run: once ms_tcp_create has recorded a stale first handle it is never replaced, and after ten
      more turns of the worker no event is dispatched any more, whatever the application does. */
  lemma RecordingStaleEndsDispatch(ls: seq<Label>, l: Label, more: seq<Label>, last: seq<Label>)
    requires Legal(INIT, ls) && Enabled(Run(INIT, ls), l) && RecordsStale(Run(INIT, ls), l)
    requires Legal(Step(Run(INIT, ls), l), more)
    requires Legal(Run(Step(Run(INIT, ls), l), more), last)
    ensures var s := Step(Run(INIT, ls), l);
      Run(s, more).first == s.first && s.first !in Run(s, more).maplink
    ensures 10 <= Turns(more) ==> forall e :: e in last ==> !e.Event?
  {
    var s0 := Run(INIT, ls);
    RunSound(ls);
    RunKeepsApart(INIT, ls);
    RecordingIsStale(s0, l);
    StepKeepsSound(s0, l);
    var s := Step(s0, l);
    StaleForever(s, more);
    RunKeepsSound(s, more);
    if 10 <= Turns(more) {
      StuckForever(Run(s, more), last);
    }
  }
}
