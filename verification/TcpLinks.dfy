/** The TCP links as the code has them: static maps, link objects and reentrant callbacks, here callbacks
    that may destroy any links. Every method is proved to be a run of the life-cycle transition system. */
module TcpLinks {
  import opened TcpLifecycle
  import opened TcpSafety
  import T = TcpLifecycle   // names the functions and frames that members of the class shadow

  /** The steps lead from one state to the other. */
  predicate Reaches(s: State, steps: seq<Label>, s': State) {
    InBounds(s) && Legal(s, steps) && Run(s, steps) == s'
  }

  lemma ReachesNow(s: State)
    requires InBounds(s)
    ensures Reaches(s, [], s)
  {
  }

  lemma ReachesBy(s: State, l: Label)
    requires InBounds(s) && Enabled(s, l)
    ensures Reaches(s, [l], Step(s, l))
  {
    RunOne(s, l);
  }

  lemma ReachesThen(s: State, a: seq<Label>, t: State, b: seq<Label>, u: State)
    requires Reaches(s, a, t) && Reaches(t, b, u)
    ensures Reaches(s, a + b, u)
  {
    RunConcat(s, a, b);
  }

  lemma ReachesSound(s: State, steps: seq<Label>, t: State)
    requires Sound(s) && Reaches(s, steps, t)
    ensures Sound(t)
  {
    RunKeepsSound(s, steps);
  }

  lemma ReachesNext(s: State, steps: seq<Label>, t: State, l: Label)
    requires Reaches(s, steps, t) && Enabled(t, l)
    ensures Reaches(s, steps + [l], Step(t, l))
  {
    ReachesBy(t, l);
    ReachesThen(s, steps, t, [l], Step(t, l));
  }

  lemma FinishingClosed(s: State, steps: seq<Label>, t: State)
    requires Reaches(s, steps, t) && t.stack != [] && t.stack[0].AfterClosed?
    ensures t.stack[0].id < |t.links| && Reaches(s, steps + [FinishClosed], SetSocket(Pop(t), t.stack[0].id, -1))
  {
    assert FrameInBounds(t.stack[0], |t.links|);
    ReachesBy(t, FinishClosed);
    ReachesThen(s, steps, t, [FinishClosed], Step(t, FinishClosed));
  }

  lemma FinishingCreated(s: State, steps: seq<Label>, t: State)
    requires Sound(s) && Reaches(s, steps, t) && t.stack != [] && t.stack[0].AfterCreated?
    ensures t.stack[0].id < |t.links|
    ensures Reaches(s, steps + [FinishCreated],
                    Pop(t).(first := if t.first == INVALID then t.stack[0].id + 1 else t.first))
  {
    ReachesSound(s, steps, t);
    assert FrameInBounds(t.stack[0], |t.links|);
    ReachesNext(s, steps, t, FinishCreated);
  }

  lemma FinishingConnected(s: State, steps: seq<Label>, t: State, attach: bool)
    requires Sound(s) && Reaches(s, steps, t) && t.stack != [] && t.stack[0].AfterConnected?
    ensures t.stack[0].id < |t.links|
    ensures Reaches(s, steps + [FinishConnected(attach)],
                    if attach then Attach(Pop(t), t.stack[0].id, t.stack[0].id + 1) else Pop(t))
  {
    ReachesSound(s, steps, t);
    assert FrameInBounds(t.stack[0], |t.links|);
    ReachesNext(s, steps, t, FinishConnected(attach));
  }

  lemma FreeingStarts(s: State)
    requires Sound(s) && s.stack == []
    ensures var s' := s.(stack := [Freeing(ByHandle(s.maplink, |s.links|))]);
      Sound(s') && Reaches(s, [FreeAll], s') && OnlyDestroyed(s, s')
  {
    var f := Freeing(ByHandle(s.maplink, |s.links|));
    ReachesBy(s, FreeAll);
    PushKeepsSound(s, f);
    assert Push(s, f) == s.(stack := [f]);
  }

  lemma FreeingGoesOn(s: State, todo: seq<Id>, start: State, before: seq<Label>)
    requires Sound(s) && s.stack == [Freeing(todo)] && todo != [] && Reaches(start, before, s)
    ensures var s1 := s.(stack := [Freeing(todo[1..])]);
      && Sound(s1) && todo[0] < |s1.links| && (s.links[todo[0]].socket < 0 || todo[0] + 1 in s.maplink)
      && Sound(T.LinkDestroy(s1, todo[0], true))
      && Reaches(start, before + [FreeNext], T.LinkDestroy(s1, todo[0], true))
  {
    TodoInBounds(s, todo);
    PopKeepsSound(s);
    var s1 := s.(stack := [Freeing(todo[1..])]);
    assert Push(Pop(s), Freeing(todo[1..])) == s1;
    PushKeepsSound(Pop(s), Freeing(todo[1..]));
    SocketOrNone(s1, todo[0]);
    hide SocketsSound, HandlesSound, AttachedSound, ShapeSound, Reaches, T.LinkDestroy;
    DestroyKeepsSound(s1, todo[0], true);
    ReachesNext(start, before, s, FreeNext);
  }

  lemma FreeingDone(s: State, steps: seq<Label>, t: State)
    requires Sound(t) && Reaches(s, steps, t) && t.stack == [Freeing([])]
    ensures Reaches(s, steps + [FreeNext], t.(stack := []))
    ensures t.descriptors != {} ==> t.maplink != map[]
  {
    ReachesNext(s, steps, t, FreeNext);
    OpenMeansRegistered(t);
  }

  /** With nothing open, every link that had a socket has been destroyed. */
  lemma AllClosed(s: State, u: State)
    requires Sound(u) && u.descriptors == {} && OnlyDestroyed(s, u) && forall id: Id :: AfterClosed(id) !in u.stack
    ensures |u.links| == |s.links|
    ensures forall i :: 0 <= i < |s.links| ==>
      u.links[i] == if s.links[i].socket >= 0 then Closed(s.links[i]) else s.links[i]
  {
    forall i | 0 <= i < |s.links|
      ensures u.links[i] == if s.links[i].socket >= 0 then Closed(s.links[i]) else s.links[i]
    {
      assert LinkSound(u, i);
    }
  }

  lemma OverEmpty(s: State, id: Id)
    requires s.stack == []
    ensures Emit(Push(s, AfterDisconnected(id))) == s.(stack := [T.Callback, AfterDisconnected(id)])
    ensures Emit(Push(s, Reading(id))) == s.(stack := [T.Callback, Reading(id)])
    ensures Push(s, Accepting(id)) == s.(stack := [Accepting(id)])
  {
  }

  /** Every registered link is still to be freed. */
  predicate Listed(keys: set<Handle>, todo: seq<Id>) {
    forall h :: h in keys ==> h - 1 in todo
  }

  lemma OneLessListed(keys: set<Handle>, keys': set<Handle>, todo: seq<Id>)
    requires Listed(keys, todo) && keys' <= keys && todo != [] && todo[0] + 1 !in keys'
    ensures Listed(keys', todo[1..])
  {
    forall h | h in keys' ensures h - 1 in todo[1..] {
      assert h - 1 in todo && h - 1 != todo[0];
    }
  }

  lemma NoneListed(keys: set<Handle>)
    requires Listed(keys, [])
    ensures keys == {}
  {
  }

  /** The list is in handle order, as the map iterates. */
  lemma {:induction false} ByHandleAscends(maplink: map<Handle, Id>, n: nat)
    requires n < 0x8000_0000 && forall h :: h in maplink ==> 0 < h && maplink[h] == h - 1
    ensures Ascends(ByHandle(maplink, n), n)
  {
    if n > 0 {
      ByHandleAscends(maplink, n - 1);
    }
  }

  predicate Ascends(ids: seq<Id>, n: nat) {
    && (forall i, j :: 0 <= i < j < |ids| ==> ids[i] < ids[j])
    && (forall i :: 0 <= i < |ids| ==> ids[i] < n)
  }

  lemma ListCovers(s: State)
    requires Sound(s)
    ensures Listed(s.maplink.Keys, ByHandle(s.maplink, |s.links|))
  {
    forall h | h in s.maplink ensures h - 1 in ByHandle(s.maplink, |s.links|) {
      RegisteredIsLiveOrClosed(s, h);
    }
  }

  lemma SocketOrNone(s: State, id: Id)
    requires Sound(s) && id < |s.links|
    ensures -1 <= s.links[id].socket && s.links[id].handle == id + 1
    ensures s.links[id].socket >= 0 && AfterClosed(id) !in s.stack ==> id + 1 in s.maplink
  {
    assert LinkSound(s, id);
  }

  /** What registering a link with epoll adds: its handle over its socket, unless it has none. */
  function Registration(h: Handle, id: Id, socket: int): seq<Attachment> {
    if 0 <= socket < 0x8000_0000 then [Attachment(Pack(h, socket), id)] else []
  }

  // ---- What callbacks that destroy links leave behind ----

  /** A link destroyed by the application: socket closed once, one CLOSED sent, socket forgotten. */
  function Closed(l: Link): Link {
    l.(socket := -1, closes := l.closes + 1, closedEvents := l.closedEvents + 1)
  }

  /** A link that ms_tcp_connect was tried on: when refused, its socket is closed. */
  function Dialled(l: Link, ok: bool): Link {
    if ok || l.socket < 0 then l.(kind := Connecting, socket := if ok then l.socket else -1)
    else l.(kind := Connecting, socket := -1, closes := l.closes + 1)
  }

  /** Every link is as it was, or had a socket, was among those registered, and is closed now. */
  predicate SomeClosed(before: seq<Link>, after: seq<Link>, keys: set<Handle>) {
    && |after| == |before|
    && forall i :: 0 <= i < |before| ==>
      after[i] == before[i] || (i + 1 in keys && before[i].socket >= 0 && after[i] == Closed(before[i]))
  }

  /** Nothing happened from s to u but destructions. */
  predicate OnlyDestroyed(s: State, u: State) {
    && SomeClosed(s.links, u.links, s.maplink.Keys) && u.maplink.Keys <= s.maplink.Keys
    && (forall i :: 0 <= i < |u.links| && u.links[i] != s.links[i] ==> i + 1 !in u.maplink)
    && (u.first == s.first || u.first == INVALID)
    && u.attached == s.attached && u.keepAlive == s.keepAlive && u.dispatching == s.dispatching
  }

  lemma OnlyDestroyedThen(s: State, t: State, u: State)
    requires OnlyDestroyed(s, t) && OnlyDestroyed(t, u)
    ensures OnlyDestroyed(s, u)
  {
  }

  /** After link_destroy: the link has no socket; if it had one, that was closed, and CLOSED sent if self; of the
      others, callbacks may have destroyed some. */
  predicate Destroyed(s: State, u: State, id: Id, self: bool)
    requires id < |s.links|
  {
    var was := s.links[id];
    && |u.links| == |s.links| && id + 1 !in u.maplink
    && u.links[id] == (if was.socket < 0 then was
                       else if self then Closed(was)
                       else was.(socket := -1, closes := was.closes + 1))
    && OnlyDestroyed(s.(links := s.links[id := u.links[id]]), u)
  }

  /** One that was registered and destroyed by the application is one of those destroyed. */
  lemma DestroyedIsOne(s: State, u: State, id: Id)
    requires id < |s.links| && (s.links[id].socket < 0 || id + 1 in s.maplink) && Destroyed(s, u, id, true)
    ensures OnlyDestroyed(s, u)
  {
    assert s.links[id].socket < 0 ==> s.links[id := u.links[id]] == s.links;
  }

  /** The end of a destruction: after the callback for CLOSED, the socket is forgotten. */
  lemma ForgetsSocket(t: State, u: State, id: Id)
    requires id < |t.links| && id + 1 !in t.maplink && OnlyDestroyed(t, u)
    ensures u.links[id] == t.links[id]
    ensures OnlyDestroyed(t.(links := t.links[id := t.links[id].(socket := -1)]),
                          u.(links := u.links[id := u.links[id].(socket := -1)], stack := u.stack))
  {
  }

  function Forgotten(s: State, id: Id): State
    requires id < |s.links|
  {
    var h := s.links[id].handle;
    T.DelLink(s.(first := if h == s.first then INVALID else s.first), h)
  }

  /** link_destroy in its three cases. */
  lemma DestroyCases(s: State, id: Id, self: bool)
    requires Sound(s) && id < |s.links| && AfterClosed(id) !in s.stack
    ensures Forgotten(s, id).links == s.links && CloseSocket(Forgotten(s, id), id).links != []
    ensures InBounds(T.LinkDestroy(s, id, self)) && Sound(T.LinkDestroy(s, id, self))
    ensures var s1, socket := Forgotten(s, id), s.links[id].socket;
      && |CloseSocket(s1, id).links| == |s.links| && CloseSocket(s1, id).links[id].socket == socket
      && CloseSocket(s1, id).stack == s.stack && CloseSocket(s1, id).maplink == s1.maplink
      && (socket == -1 ==> T.LinkDestroy(s, id, self) == s1)
      && (socket != -1 && !self ==> T.LinkDestroy(s, id, self) == SetSocket(CloseSocket(s1, id), id, -1))
      && (socket != -1 && self ==>
            var s2 := CloseSocket(s1, id);
            var l := s2.links[id].(closedEvents := s2.links[id].closedEvents + 1);
            T.LinkDestroy(s, id, self)
            == s2.(links := s2.links[id := l], stack := [T.Callback, AfterClosed(id)] + s2.stack))
  {
    SocketOrNone(s, id);
    DestroyKeepsSound(s, id, self);
    assert [T.Callback] + ([AfterClosed(id)] + s.stack) == [T.Callback, AfterClosed(id)] + s.stack;
  }

  /** Without a socket, or without CLOSED, there is no callback. */
  lemma DestroyedAtOnce(s: State, id: Id, self: bool)
    requires InBounds(s) && id < |s.links| && s.links[id].handle == id + 1 && -1 <= s.links[id].socket
    requires s.links[id].socket == -1 || !self
    ensures Destroyed(s, T.LinkDestroy(s, id, self), id, self)
  {
  }

  /** With CLOSED, this is where the callback finds the link. */
  lemma DestroyedSoFar(s: State, id: Id)
    requires InBounds(s) && id < |s.links| && s.links[id].handle == id + 1 && 0 <= s.links[id].socket
    ensures var t, l := T.LinkDestroy(s, id, true), s.links[id];
      && t.links == s.links[id := l.(closes := l.closes + 1, closedEvents := l.closedEvents + 1)]
      && t.maplink.Keys == s.maplink.Keys - {id + 1} && (t.first == s.first || t.first == INVALID)
      && t.attached == s.attached && t.keepAlive == s.keepAlive && t.dispatching == s.dispatching
  {
  }

  lemma DestroyedBy(s: State, t: State, u: State, id: Id)
    requires id < |s.links| && s.links[id].socket >= 0
    requires t.links == s.links[id := s.links[id].(closes := s.links[id].closes + 1,
                                                   closedEvents := s.links[id].closedEvents + 1)]
    requires t.maplink.Keys == s.maplink.Keys - {id + 1} && (t.first == s.first || t.first == INVALID)
    requires t.attached == s.attached && t.keepAlive == s.keepAlive && t.dispatching == s.dispatching
    requires OnlyDestroyed(t.(links := t.links[id := t.links[id].(socket := -1)]), u)
    ensures Destroyed(s, u, id, true)
  {
    assert t.links[id := t.links[id].(socket := -1)] == s.links[id := Closed(s.links[id])];
  }

  /** From s to u, reads with these answers until one is not data or the socket is gone, k of them data: nothing
      but destructions, this link's own at the end of the stream, and at most the one registration after an
      interruption. */
  predicate HasRead(s: State, u: State, id: Id, results: seq<Reception>, k: nat)
    requires id < |s.links|
  {
    && OnlyDestroyed(s.(attached := u.attached), u)
    && k <= |results| && (forall i :: 0 <= i < k ==> results[i].Data?)
    && (k < |results| && results[k].Data? ==> u.links[id].socket < 0)
    && (k < |results| && results[k].Ends? && s.links[id].socket >= 0 ==> u.links[id].socket < 0 && id + 1 !in u.maplink)
    && (u.attached == s.attached
        || (k < |results| && results[k] == Interrupted(true)
            && u.attached == s.attached + Registration(s.links[id].handle, id, s.links[id].socket)))
    && (k < |results| && results[k] == Interrupted(true) && u.links[id].socket >= 0 ==>
          u.attached == s.attached + Registration(s.links[id].handle, id, s.links[id].socket))
  }

  /** One read. */
  predicate ReadThis(t: State, u: State, id: Id, got: Reception)
    requires id < |t.links|
  {
    && OnlyDestroyed(t.(attached := u.attached), u)
    && (got.Ends? ==> u.links[id].socket < 0 && id + 1 !in u.maplink)
    && u.attached == t.attached
       + (if got == Interrupted(true) then Registration(t.links[id].handle, id, t.links[id].socket) else [])
    && (got.Error? ==> u.links == t.links)
  }

  predicate ReadingOn(s: State, t: State, results: seq<Reception>, k: nat) {
    OnlyDestroyed(s, t) && k <= |results| && forall i :: 0 <= i < k ==> results[i].Data?
  }

  lemma ReadOneMore(s: State, t: State, u: State, id: Id, results: seq<Reception>, k: nat, got: Reception)
    requires id < |s.links| && ReadingOn(s, t, results, k) && ReadThis(t, u, id, got)
    requires got == if k < |results| && t.links[id].socket >= 0 then results[k] else Error
    ensures if got.Data? then ReadingOn(s, u, results, k + 1) else HasRead(s, u, id, results, k)
  {
    assert t.links[id].socket >= 0 ==> t.links[id] == s.links[id];
    OnlyDestroyedThen(s.(attached := u.attached), t.(attached := u.attached), u);
  }

  lemma ReadThenCallback(s: State, t: State, u: State, id: Id, results: seq<Reception>, k: nat)
    requires id < |s.links| && HasRead(s, t, id, results, k) && OnlyDestroyed(t, u)
    ensures HasRead(s, u, id, results, k)
  {
    OnlyDestroyedThen(s.(attached := u.attached), t, u);
  }

  lemma EndReadStarts(s: State, id: Id)
    requires Sound(s) && s.stack == [Reading(id)] && id < |s.links| && s.links[id].socket >= 0
    ensures var s1 := s.(stack := [AfterRead(id)]);
      Sound(s1) && id + 1 in s.maplink && Reaches(s, [Read(Ends)], T.LinkDestroy(s1, id, true))
  {
    SocketOrNone(s, id);
    assert Push(Pop(s), AfterRead(id)) == s.(stack := [AfterRead(id)]);
    PopKeepsSound(s);
    PushKeepsSound(Pop(s), AfterRead(id));
    ReachesBy(s, Read(Ends));
  }

  lemma DestroyedWithin(s: State, s1: State, u: State, id: Id)
    requires s1 == s.(stack := s1.stack) && id < |s.links| && (s.links[id].socket < 0 || id + 1 in s.maplink)
    requires Destroyed(s1, u, id, true)
    ensures OnlyDestroyed(s, u) && u.links[id].socket < 0 && id + 1 !in u.maplink
  {
    DestroyedIsOne(s1, u, id);
  }

  lemma EndReadEnds(s: State, steps: seq<Label>, t: State, id: Id)
    requires Reaches(s, steps, t) && t.stack == [AfterRead(id)]
    ensures Reaches(s, steps + [FinishRead], t.(stack := [T.Callback]))
  {
    ReachesNext(s, steps, t, FinishRead);
    assert Emit(Pop(t)) == t.(stack := [T.Callback]);
  }

  // ---- What accepting leaves behind ----

  /** The link made for the n-th descriptor, counting from zero. */
  function AcceptedLink(n: nat, fd: Descriptor): Link
    requires n + 1 < 0x8000_0000
  {
    Link(n + 1, fd, Accepted, 0, 0)
  }

  predicate AllAccept(rs: seq<Acceptance>) {
    forall i :: 0 <= i < |rs| ==> rs[i].Accepts?
  }

  /** What accepting these on top of n links registers with epoll. */
  function Registrations(n: nat, rs: seq<Acceptance>): seq<Attachment>
    requires AllAccept(rs) && n + |rs| < 0x8000_0000
  {
    if rs == [] then []
    else
      var last := |rs| - 1;
      Registrations(n, rs[..last]) + if rs[last].attach then Registration(n + |rs|, n + last, rs[last].fd) else []
  }

  /** How many of them the application is told of. */
  function Told(rs: seq<Acceptance>): nat
    requires AllAccept(rs)
  {
    if rs == [] then 0 else Told(rs[..|rs| - 1]) + if rs[|rs| - 1].attach then 1 else 0
  }

  /** The accepted link in the maps and, if so, with epoll. */
  function WithAccepted(s: State, taken: Acceptance): State
    requires taken.Accepts? && |s.links| + 1 < 0x8000_0000
  {
    var n := |s.links|;
    s.(links := s.links + [AcceptedLink(n, taken.fd)], maplink := s.maplink[n + 1 := n],
       attached := s.attached + if taken.attach then Registration(n + 1, n, taken.fd) else [])
  }

  /** The links made for these descriptors, from index n on. */
  predicate AreAccepted(n: nat, links: seq<Link>, rs: seq<Acceptance>) {
    && AllAccept(rs) && n + |rs| < 0x8000_0000 && |links| == n + |rs|
    && forall i :: 0 <= i < |rs| ==>
      links[n + i] == AcceptedLink(n + i, rs[i].fd) || links[n + i] == Closed(AcceptedLink(n + i, rs[i].fd))
  }

  /** From s to u these descriptors, in this order, became new accepted links, and nothing else happened but
      destructions, perhaps of some of them. */
  predicate HasAccepted(s: State, u: State, rs: seq<Acceptance>) {
    var n := |s.links|;
    && AreAccepted(n, u.links, rs)
    && SomeClosed(s.links, u.links[..n], s.maplink.Keys)
    && (forall h :: h in u.maplink ==> h in s.maplink || n < h <= n + |rs|)
    && u.attached == s.attached + Registrations(n, rs)
    && (u.first == s.first || u.first == INVALID) && u.keepAlive == s.keepAlive && u.dispatching == s.dispatching
  }

  /** The first k of these were accepted, and the application told of those attached. */
  predicate AcceptedFirst(s: State, u: State, rs: seq<Acceptance>, k: nat, sent: int) {
    k <= |rs| && HasAccepted(s, u, rs[..k]) && sent >= Told(rs[..k])
  }

  lemma NothingAccepted(s: State, rs: seq<Acceptance>)
    requires |s.links| < 0x8000_0000
    ensures AcceptedFirst(s, s, rs, 0, 0)
  {
    assert s.links[..|s.links|] == s.links;
  }

  lemma AcceptNoMore(s: State, t: State, rs: seq<Acceptance>, k: nat, sent: int)
    requires AcceptedFirst(s, t, rs, k, sent)
    ensures AcceptedFirst(s, t.(stack := []), rs, k, sent)
  {
  }

  lemma AcceptOneMore(s: State, t: State, u: State, rs: seq<Acceptance>, k: nat, sent: int, sent': int)
    requires AcceptedFirst(s, t, rs, k, sent) && k < |rs| && rs[k].Accepts? && |t.links| + 1 < 0x8000_0000
    requires OnlyDestroyed(WithAccepted(t, rs[k]), u) && sent' >= sent + if rs[k].attach then 1 else 0
    ensures AcceptedFirst(s, u, rs, k + 1, sent')
  {
    assert rs[..k + 1] == rs[..k] + [rs[k]];
    HasAcceptedOneMore(s, t, u, rs[..k], rs[k]);
  }

  lemma HasAcceptedOneMore(s: State, t: State, u: State, rs: seq<Acceptance>, taken: Acceptance)
    requires HasAccepted(s, t, rs) && taken.Accepts? && |t.links| + 1 < 0x8000_0000
    requires OnlyDestroyed(WithAccepted(t, taken), u)
    ensures HasAccepted(s, u, rs + [taken])
    ensures Told(rs + [taken]) == Told(rs) + if taken.attach then 1 else 0
  {
    var n, more := |s.links|, rs + [taken];
    assert more[..|rs|] == rs && AllAccept(more);
    hide Registration;
    NewLinksAccepted(n, t.links, u.links, rs, taken, WithAccepted(t, taken).maplink.Keys);
    OldLinksAccepted(s.links, t.links, u.links, AcceptedLink(n + |rs|, taken.fd), s.maplink.Keys,
                     WithAccepted(t, taken).maplink.Keys);
  }

  lemma NewLinksAccepted(n: nat, before: seq<Link>, after: seq<Link>, rs: seq<Acceptance>, taken: Acceptance,
                         keys: set<Handle>)
    requires AreAccepted(n, before, rs) && taken.Accepts? && n + |rs| + 1 < 0x8000_0000
    requires SomeClosed(before + [AcceptedLink(n + |rs|, taken.fd)], after, keys)
    ensures AreAccepted(n, after, rs + [taken])
  {
    var made := before + [AcceptedLink(n + |rs|, taken.fd)];
    forall i | 0 <= i < |rs + [taken]|
      ensures var l := AcceptedLink(n + i, (rs + [taken])[i].fd); after[n + i] == l || after[n + i] == Closed(l)
    {
      assert made[n + i] == if i < |rs| then before[n + i] else AcceptedLink(n + |rs|, taken.fd);
    }
  }

  lemma OldLinksAccepted(was: seq<Link>, before: seq<Link>, after: seq<Link>, last: Link, keys: set<Handle>,
                         keys': set<Handle>)
    requires |was| <= |before| && SomeClosed(was, before[..|was|], keys)
    requires SomeClosed(before + [last], after, keys') && forall h :: h in keys' && h <= |was| ==> h in keys
    ensures SomeClosed(was, after[..|was|], keys)
  {
    forall i | 0 <= i < |was|
      ensures after[i] == was[i] || (i + 1 in keys && was[i].socket >= 0 && after[i] == Closed(was[i]))
    {
      assert before[..|was|][i] == before[i] && (before + [last])[i] == before[i];
    }
  }

  /** The step of the system: the new link, and the callback if the application is told of it. */
  predicate AcceptsBy(s: State, taken: Acceptance, s2: State)
    requires taken.Accepts? && |s.links| + 1 < 0x8000_0000
  {
    var s1 := T.AddTcpLink(s, taken.fd, Accepted);
    && |s1.links| == |s.links| + 1 && s1.stack == s.stack
    && s2 == (if taken.attach then
                var a := Attach(s1, |s.links|, |s.links| + 1); a.(stack := [T.Callback] + a.stack)
              else s1)
    && OnlyDestroyed(WithAccepted(s, taken), s2)
  }

  lemma AcceptingStep(s: State, taken: Acceptance)
    requires Sound(s) && Enabled(s, Accept(taken)) && taken.Accepts?
    ensures |s.links| + 1 < 0x8000_0000 && AcceptsBy(s, taken, Step(s, Accept(taken)))
  {
    hide Sound;
  }

  // ---- What one event leaves behind ----

  /** accept on the link can give this descriptor. */
  predicate MayAccept(descriptors: set<Descriptor>, links: seq<Link>, id: Id, fd: Descriptor)
    requires id < |links|
  {
    fd !in descriptors && |links| + 1 < 0x8000_0000 && links[id].socket >= 0
  }

  /** After a hang-up: unregistered, without a socket, and unless a callback was faster, without CLOSED. */
  predicate HungUp(s: State, u: State, id: Id)
    requires id < |s.links|
  {
    var was := s.links[id];
    && |u.links| == |s.links| && id + 1 !in u.maplink
    && (if was.socket < 0 then u.links[id] == was
        else u.links[id] == was.(socket := -1, closes := was.closes + 1) || u.links[id] == Closed(was))
    && OnlyDestroyed(s.(links := s.links[id := u.links[id]]), u)
  }

  lemma HungUpAfter(s: State, t: State, t1: State, u: State, id: Id)
    requires id < |s.links| && OnlyDestroyed(s, t) && t1 == t.(stack := []) && Destroyed(t1, u, id, false)
    ensures HungUp(s, u, id)
  {
    var x := u.links[id];
    OnlyDestroyedThen(s.(links := s.links[id := x]), t1.(links := t1.links[id := x]), u);
  }

  /** One event for handle h: nothing for an unregistered one; a hang-up; accepting on a listening link, reading on
      an established one, when it is readable; a connecting link becomes a connected one when it is ready; and
      nothing else. k counts what was accepted or read, sent the events the application was sent. */
  predicate Handled(s: State, u: State, h: Handle, flags: Flags, received: seq<Reception>,
                    accepted: seq<Acceptance>, k: nat, sent: int)
    requires InBounds(s)
  {
    if h !in s.maplink then u == s && sent == 0
    else
      var id := s.maplink[h];
      var kind := s.links[id].kind;
      if flags.disconnected then HungUp(s, u, id) && sent >= 1
      else if kind == Listening && flags.readable then
        && AcceptedFirst(s, u, accepted, k, sent) && Findable(u, |s.links|)
        && (k < |accepted| && accepted[k].Accepts? ==>
              id < |u.links| && !MayAccept(u.descriptors, u.links, id, accepted[k].fd))
      else if (kind == Accepted || kind == Connected) && flags.readable then
        HasRead(s, u, id, received, k) && sent >= 2 + k
      else if kind == Connecting && (flags.readable || flags.writeable) then
        u == s.(links := s.links[id := s.links[id].(kind := Connected)]) && sent == 0
      else u == s && sent == 0
  }

  /** The links from this one on that have a socket can be found. */
  predicate Findable(u: State, from: nat) {
    forall i :: from <= i < |u.links| && u.links[i].socket >= 0 ==> i + 1 in u.maplink && u.maplink[i + 1] == i
  }

  lemma LiveAreFindable(u: State, from: nat)
    requires Sound(u) && u.stack == []
    ensures Findable(u, from)
  {
    forall i | from <= i < |u.links| && u.links[i].socket >= 0 ensures i + 1 in u.maplink && u.maplink[i + 1] == i {
      SocketOrNone(u, i);
    }
  }

  lemma TurnCounted(s: State, t: State, u: State)
    requires t == s.(dispatching := true, stack := t.stack) && OnlyDestroyed(t, u)
    ensures var n := CountTurn(s.keepAlive);
      u.keepAlive == s.keepAlive && u.dispatching
      && OnlyDestroyed(s.(keepAlive := n, dispatching := true), u.(keepAlive := n, stack := []))
  {
  }

  /** What the frames on the stack were does not matter to any of this. */
  lemma FromEmptyStack(s: State, t: State, u: State, id: Id, received: seq<Reception>, accepted: seq<Acceptance>,
                       k: nat, sent: int)
    requires t == s.(stack := t.stack) && id < |s.links|
    ensures HungUp(t, u, id) ==> HungUp(s, u, id)
    ensures HasRead(t, u, id, received, k) ==> HasRead(s, u, id, received, k)
    ensures AcceptedFirst(t, u, accepted, k, sent) ==> AcceptedFirst(s, u, accepted, k, sent)
  {
  }

  class MsTcpLinks {
    const calls: nat -> seq<Handle>   // what the callback of the n-th event destroys
    var events: nat
    var links: seq<Link>              // the link objects
    var maplink: map<Handle, Id>
    var socketMap: map<Handle, int>
    var first: Handle
    var keepAlive: nat
    var dispatching: bool
    var descriptors: set<Descriptor>
    var attached: seq<Attachment>
    ghost var stack: seq<Frame>

    ghost function View(): State
      reads this
    {
      State(links, maplink, socketMap, first, keepAlive, dispatching, stack, descriptors, attached)
    }

    constructor (c: nat -> seq<Handle>)
      ensures View() == INIT && calls == c
    {
      calls, events, links, maplink, socketMap := c, 0, [], map[], map[];
      first, keepAlive, dispatching := INVALID, 0, false;
      descriptors, attached, stack := {}, [], [];
    }

    method FindLink(h: Handle) returns (found: bool, id: Id)
      ensures found == (h in maplink) && (found ==> id == maplink[h])
    {
      found, id := h in maplink, 0;
      if found {
        id := maplink[h];
      }
    }

    method DelLink(h: Handle) returns (found: bool)
      modifies `maplink, `socketMap
      ensures found == (h in old(maplink)) && View() == T.DelLink(old(View()), h)
      ensures maplink == old(maplink) - {h} && socketMap == if found then old(socketMap) - {h} else old(socketMap)
    {
      if h !in maplink {
        return false;
      }
      maplink := maplink - {h};
      if h in socketMap {
        socketMap := socketMap - {h};
      }
      found := true;
    }

    /** add_tcp_link, then set_link. */
    method AddTcpLink(fd: Descriptor, kind: Kind) returns (h: Handle)
      requires |links| + 1 < 0x8000_0000
      modifies `links, `maplink, `socketMap, `descriptors
      ensures View() == T.AddTcpLink(old(View()), fd, kind) && h == |links| && |links| == old(|links|) + 1
      ensures links == old(links) + [Link(h, fd, kind, 0, 0)] && descriptors == old(descriptors) + {fd}
      ensures maplink == old(maplink)[h := h - 1] && socketMap == old(socketMap)[h := fd]
    {
      h := |links| + 1;
      maplink := maplink[h := |links|];
      socketMap := socketMap[h := fd];
      links := links + [Link(h, fd, kind, 0, 0)];
      descriptors := descriptors + {fd};
    }

    /** close(mi_socket). */
    method Close(id: Id)
      requires id < |links| && links[id].socket >= 0
      modifies `links, `descriptors
      ensures View() == CloseSocket(old(View()), id)
      ensures links == old(links)[id := old(links[id]).(closes := old(links[id]).closes + 1)]
      ensures descriptors == old(descriptors) - {links[id].socket}
    {
      descriptors := set fd | fd in descriptors && fd != links[id].socket;
      links := links[id := links[id].(closes := links[id].closes + 1)];
    }

    /** link_destroy: out of the maps first, then the socket closed, CLOSED sent and the socket forgotten. */
    method LinkDestroy(id: Id, self: bool) returns (ghost steps: seq<Label>)
      requires Sound(View()) && id < |links| && AfterClosed(id) !in stack
      modifies this
      ensures stack == old(stack) && maplink.Keys <= old(maplink.Keys) && |links| == old(|links|)
      ensures dispatching == old(dispatching)
      ensures Destroyed(old(View()), View(), id, self)
      ensures events >= old(events) + if self && old(links[id].socket) >= 0 then 1 else 0
      ensures Reaches(T.LinkDestroy(old(View()), id, self), steps, View())
      decreases maplink.Keys, 0
    {
      ghost var s := View();
      DestroyKeepsSound(s, id, self);
      SocketOrNone(s, id);
      if links[id].socket == -1 || !self {
        DestroyedAtOnce(s, id, self);
      }
      DestroyCases(s, id, self);
      hide Sound, Reaches, Destroyed, OnlyDestroyed, T.LinkDestroy, Forgotten, CloseSocket;
      Forget(id);
      if links[id].socket == -1 {
        ReachesNow(View());
        return [];
      }
      Close(id);
      if !self {
        links := links[id := links[id].(socket := -1)];
        ReachesNow(View());
        return [];
      }
      steps := TellClosed(id, s);
    }

    /** The first handle and the maps. */
    method Forget(id: Id)
      requires id < |links|
      modifies `first, `maplink, `socketMap
      ensures View() == Forgotten(old(View()), id) && maplink.Keys == old(maplink.Keys) - {links[id].handle}
    {
      if links[id].handle == first {
        first := INVALID;
      }
      var found := DelLink(links[id].handle);
    }

    /** CLOSED, for a link destroyed by the application. */
    method TellClosed(id: Id, ghost s: State) returns (ghost steps: seq<Label>)
      requires id < |links| && id < |s.links| && s.links[id].handle == id + 1 && 0 <= s.links[id].socket
      requires Sound(s) && Sound(T.LinkDestroy(s, id, true))
      requires View().(links := links[id := links[id].(closedEvents := links[id].closedEvents + 1)],
                       stack := [T.Callback, AfterClosed(id)] + stack) == T.LinkDestroy(s, id, true)
      modifies this
      ensures stack == old(stack) && maplink.Keys <= old(maplink.Keys) && |links| == old(|links|)
      ensures dispatching == old(dispatching) && events > old(events)
      ensures Destroyed(s, View(), id, true)
      ensures Reaches(T.LinkDestroy(s, id, true), steps, View())
      decreases maplink.Keys, 4
    {
      DestroyedSoFar(s, id);
      hide Sound, Reaches, Destroyed, OnlyDestroyed, T.LinkDestroy;
      links := links[id := links[id].(closedEvents := links[id].closedEvents + 1)];
      stack := [T.Callback, AfterClosed(id)] + stack;
      ghost var t := View();
      steps := FinishDestroy(id);
      DestroyedBy(s, t, View(), id);
    }

    /** The end of link_destroy: the event, then the socket forgotten. */
    method FinishDestroy(id: Id) returns (ghost steps: seq<Label>)
      requires Sound(View()) && |stack| >= 2 && stack[0] == T.Callback && stack[1] == AfterClosed(id) && id < |links|
      modifies this
      ensures stack == old(stack[2..]) && maplink.Keys <= old(maplink.Keys) && |links| == old(|links|)
      ensures dispatching == old(dispatching) && events > old(events)
      ensures OnlyDestroyed(old(View()).(links := old(links)[id := old(links[id]).(socket := -1)]), View())
      ensures Reaches(old(View()), steps, View())
      decreases maplink.Keys, 3
    {
      ghost var s := View();
      assert id + 1 !in maplink by { assert LinkSound(s, id) && s.stack[1] in s.stack; }
      hide Reaches, Step, Enabled, OnlyDestroyed;
      steps := Callback();
      ghost var t := View();
      assert t.stack[0] == AfterClosed(id);
      FinishingClosed(s, steps, t);
      ForgetsSocket(s, t, id);
      links := links[id := links[id].(socket := -1)];
      stack := stack[1..];
      steps := steps + [FinishClosed];
    }

    /** The application's callback for one event. */
    method Callback() returns (ghost steps: seq<Label>)
      requires Sound(View()) && stack != [] && stack[0] == T.Callback
      modifies this
      ensures stack == old(stack[1..]) && maplink.Keys <= old(maplink.Keys) && |links| == old(|links|)
      ensures dispatching == old(dispatching)
      ensures OnlyDestroyed(old(View()), View()) && events > old(events)
      ensures Reaches(old(View()), steps, View())
      decreases maplink.Keys, 2
    {
      ghost var s := View();
      var todo := calls(events);
      events := events + 1;
      steps := [];
      ReachesNow(s);
      var i := 0;
      while i < |todo|
        invariant 0 <= i <= |todo|
        invariant stack == s.stack && maplink.Keys <= s.maplink.Keys && |links| == |s.links|
        invariant dispatching == s.dispatching
        invariant OnlyDestroyed(s, View()) && events > old(events)
        invariant Reaches(s, steps, View())
      {
        ghost var t := View();
        ReachesSound(s, steps, t);
        var found, more := MsTcpDestroy(todo[i]);
        OnlyDestroyedThen(s, t, View());
        ReachesThen(s, steps, t, more, View());
        steps := steps + more;
        i := i + 1;
      }
      ghost var t := View();
      assert InBounds(t) && Step(t, Return) == Pop(t);
      ReachesBy(t, Return);
      ReachesThen(s, steps, t, [Return], Pop(t));
      stack := stack[1..];
      steps := steps + [Return];
    }

    /** ms_tcp_destroy. */
    method MsTcpDestroy(h: Handle) returns (found: bool, ghost steps: seq<Label>)
      requires Sound(View()) && Free(View())
      modifies this
      ensures stack == old(stack) && maplink.Keys <= old(maplink.Keys) && |links| == old(|links|)
      ensures dispatching == old(dispatching)
      ensures found == (h in old(maplink)) && h !in maplink
      ensures OnlyDestroyed(old(View()), View()) && events >= old(events)
      ensures found && old(links[maplink[h]].socket) >= 0 ==>
        && events > old(events)
        && var l := links[old(maplink[h])]; l.socket == -1 && l.closes == 1 && l.closedEvents == 1
      ensures Reaches(old(View()), steps, View())
      decreases maplink.Keys, 1
    {
      ghost var s := View();
      ReachesBy(s, Destroy(h));
      var id;
      found, id := FindLink(h);
      steps := [Destroy(h)];
      if found {
        RegisteredIsLiveOrClosed(s, h);
        assert LinkSound(s, id);
        ghost var more := LinkDestroy(id, true);
        DestroyedIsOne(s, View(), id);
        ReachesThen(s, steps, Step(s, Destroy(h)), more, View());
        steps := steps + more;
      }
    }

    method AttachToEpoll(id: Id, h: Handle)
      requires id < |links|
      modifies `attached
      ensures View() == Attach(old(View()), id, h)
      ensures attached == old(attached) + Registration(h, id, links[id].socket)
    {
      var fd := links[id].socket;
      if 0 <= fd < 0x8000_0000 {
        attached := attached + [Attachment(Pack(h, fd), id)];
      }
    }

    /** ms_tcp_create. */
    method MsTcpCreate(made: Creation) returns (h: Handle, ghost steps: seq<Label>)
      requires Sound(View()) && Enabled(View(), Create(made))
      modifies this
      ensures Reaches(old(View()), steps, View()) && stack == old(stack) && steps != [] && steps[0] == Create(made)
      ensures h == if made.Created? then old(|links|) + 1 else INVALID
      ensures !made.Created? ==> View() == old(View()) && events == old(events)
      ensures made.Created? ==>
        && events > old(events) && attached == old(attached)
        && SomeClosed(old(links) + [Link(h, made.fd, Null, 0, 0)], links, old(maplink.Keys) + {h})
        && (first == h || (old(first) != INVALID && first == old(first)))
    {
      ghost var s := View();
      ReachesBy(s, Create(made));
      steps := [Create(made)];
      if !made.Created? {
        return INVALID, steps;
      }
      CallKeepsSound(s, Create(made));
      h := AddTcpLink(made.fd, Null);
      stack := [T.Callback, AfterCreated(h - 1)] + stack;
      ghost var t := View();
      assert t == Step(s, Create(made));
      hide Sound, Reaches, Step, Enabled, SomeClosed, T.AddTcpLink;
      ghost var more := TellCreated(h);
      ReachesThen(s, steps, t, more, View());
      steps := steps + more;
    }

    /** CREATED, then the first handle recorded. */
    method TellCreated(h: Handle) returns (ghost steps: seq<Label>)
      requires Sound(View()) && |stack| >= 2 && stack[0] == T.Callback && h == |links| && h > 0
      requires stack[1] == AfterCreated(h - 1)
      modifies this
      ensures Reaches(old(View()), steps, View()) && stack == old(stack[2..]) && events > old(events)
      ensures attached == old(attached) && SomeClosed(old(links), links, old(maplink.Keys))
      ensures first == h || (old(first) != INVALID && first == old(first))
    {
      ghost var s := View();
      hide Reaches, Step, Enabled;
      steps := Callback();
      FinishingCreated(s, steps, View());
      steps := steps + [FinishCreated];
      if first == INVALID {
        first := h;
      }
      stack := stack[1..];
    }

    /** ms_tcp_listen. */
    method MsTcpListen(h: Handle, backlog: nat, works: bool, attach: bool) returns (ok: bool, ghost steps: seq<Label>)
      requires Sound(View()) && Enabled(View(), Listen(h, backlog, works, attach))
      modifies `links, `attached
      ensures Reaches(old(View()), steps, View()) && ok == (h in maplink && works)
      ensures steps == [Listen(h, backlog, works, attach)]
      ensures links == if h in maplink && backlog > 0 then
                         var id := maplink[h]; old(links)[id := old(links)[id].(kind := Listening)]
                       else old(links)
      ensures attached == old(attached) + if ok && attach then Registration(h, maplink[h], links[maplink[h]].socket)
                                          else []
    {
      ReachesBy(View(), Listen(h, backlog, works, attach));
      steps := [Listen(h, backlog, works, attach)];
      var found, id := FindLink(h);
      if !found || backlog == 0 {
        return false, steps;
      }
      links := links[id := links[id].(kind := Listening)];
      if works {
        if attach {
          AttachToEpoll(id, h);
        }
        return true, steps;
      }
      ok := false;
    }

    /** ms_tcp_connect; a refused connection closes the socket but leaves the link registered. */
    method MsTcpConnect(h: Handle, result: Connection, attach: bool) returns (ok: bool, ghost steps: seq<Label>)
      requires Sound(View()) && Enabled(View(), Connect(h, result))
      modifies this
      ensures Reaches(old(View()), steps, View()) && stack == old(stack)
      ensures steps != [] && steps[0] == Connect(h, result)
      ensures ok == (h in old(maplink) && result.Connects?)
      ensures h !in old(maplink) || result.NoAddress? ==> View() == old(View()) && events == old(events)
      ensures h in old(maplink) && !result.NoAddress? ==>
        && events > old(events)
        && var id := old(maplink[h]);
        && SomeClosed(old(links)[id := Dialled(old(links[id]), ok)], links, old(maplink.Keys))
        && attached == old(attached) + if ok && attach then Registration(h, id, links[id].socket) else []
    {
      ghost var s := View();
      ReachesBy(s, Connect(h, result));
      CallKeepsSound(s, Connect(h, result));
      ghost var t := Step(s, Connect(h, result));
      steps := [Connect(h, result)];
      var found, id := FindLink(h);
      ok := found && result.Connects?;
      if !found || result.NoAddress? {
        return;
      }
      TryConnect(h, id, result);
      hide Sound, Reaches, Step, Enabled, T.LinkConnect;
      ghost var more;
      if ok {
        more := AwaitConnected(id, attach);
      } else {
        more := Callback();
      }
      ReachesThen(s, steps, t, more, View());
      steps := steps + more;
    }

    /** link_connect, up to its callback. */
    method TryConnect(h: Handle, id: Id, result: Connection)
      requires InBounds(View()) && h in maplink && maplink[h] == id && !result.NoAddress?
      requires Enabled(View(), Connect(h, result))
      modifies `links, `descriptors, `stack
      ensures View() == Step(old(View()), Connect(h, result)) && |links| == old(|links|)
      ensures links == old(links)[id := Dialled(old(links[id]), result.Connects?)]
      ensures stack == (if result.Connects? then [T.Callback, AfterConnected(id)] else [T.Callback]) + old(stack)
    {
      links := links[id := links[id].(kind := Connecting)];
      if result.Connects? {
        stack := [T.Callback, AfterConnected(id)] + stack;
      } else {
        Refuse(id);
        stack := [T.Callback] + stack;
      }
    }

    /** The end of ms_tcp_connect: CONNECTED, then the registration with epoll. */
    method AwaitConnected(id: Id, attach: bool) returns (ghost steps: seq<Label>)
      requires Sound(View()) && |stack| >= 2 && stack[0] == T.Callback && stack[1] == AfterConnected(id) && id < |links|
      modifies this
      ensures stack == old(stack[2..]) && Reaches(old(View()), steps, View())
      ensures events > old(events) && SomeClosed(old(links), links, old(maplink.Keys))
      ensures attached == old(attached) + if attach then Registration(id + 1, id, links[id].socket) else []
    {
      ghost var s := View();
      steps := Callback();
      FinishingConnected(s, steps, View(), attach);
      steps := steps + [FinishConnected(attach)];
      stack := stack[1..];
      if attach {
        AttachToEpoll(id, id + 1);
      }
    }

    method Refuse(id: Id)
      requires id < |links|
      modifies `links, `descriptors
      ensures View() == SetSocket(CloseSocket(old(View()), id), id, -1)
      ensures var l := old(links[id]);
        links == old(links)[id := l.(socket := -1, closes := l.closes + if l.socket >= 0 then 1 else 0)]
    {
      if links[id].socket >= 0 {
        Close(id);
      }
      links := links[id := links[id].(socket := -1)];
    }

    /** on_event_read: what read returns comes from results, then EAGAIN; a link that has lost its socket reads
        from -1, which fails. */
    method OnEventRead(id: Id, results: seq<Reception>) returns (ghost steps: seq<Label>, k: nat)
      requires Sound(View()) && stack == [T.Callback, Reading(id)] && id < |links|
      modifies this
      ensures stack == [] && Reaches(old(View()), steps, View())
      ensures maplink.Keys <= old(maplink.Keys) && |links| == old(|links|)
      ensures HasRead(old(View()), View(), id, results, k) && events >= old(events) + 2 + k
    {
      ghost var s := View();
      steps := Callback();
      k := 0;
      var reading := true;
      while reading
        invariant k <= |results|
        invariant if reading then ReadingOn(s, View(), results, k) else HasRead(s, View(), id, results, k)
        invariant events >= old(events) + 1 + k
        invariant stack == [if reading then Reading(id) else T.Callback]
        invariant |links| == |s.links| && maplink.Keys <= s.maplink.Keys
        invariant Reaches(s, steps, View())
        decreases |results| - k, reading
      {
        ghost var t := View();
        ReachesSound(s, steps, t);
        var got := if k < |results| && links[id].socket >= 0 then results[k] else Error;
        reading := got.Data?;
        ghost var more := ReadOnce(id, got);
        ReadOneMore(s, t, View(), id, results, k, got);
        if reading {
          k := k + 1;
        }
        ReachesThen(s, steps, t, more, View());
        steps := steps + more;
      }
      ghost var t := View();
      ReachesSound(s, steps, t);
      ghost var more := Callback();
      ReadThenCallback(s, t, View(), id, results, k);
      ReachesThen(s, steps, t, more, View());
      steps := steps + more;
    }

    /** One turn of on_event_read's loop; up to RECV_END when it is the last. */
    method ReadOnce(id: Id, got: Reception) returns (ghost steps: seq<Label>)
      requires Sound(View()) && stack == [Reading(id)] && id < |links| && (!got.Error? ==> links[id].socket >= 0)
      modifies this
      ensures stack == [if got.Data? then Reading(id) else T.Callback]
      ensures |links| == old(|links|) && maplink.Keys <= old(maplink.Keys)
      ensures ReadThis(old(View()), View(), id, got) && events >= old(events) + if got.Data? then 1 else 0
      ensures Reaches(old(View()), steps, View())
    {
      ghost var s := View();
      ReachesBy(s, Read(got));
      LoopsKeepSound(s, Read(got));
      steps := [Read(got)];
      match got {
        case Data =>
          stack := [T.Callback] + stack;
          ghost var more := Callback();
          ReachesThen(s, steps, Step(s, Read(got)), more, View());
          steps := steps + more;
        case Error =>
          stack := [T.Callback];
          assert View() == Emit(Pop(s));
        case Interrupted(rearm) =>
          if rearm {
            AttachToEpoll(id, links[id].handle);
          }
          stack := [T.Callback];
          assert View() == Step(s, Read(got));
        case Ends => steps := EndRead(id);
      }
    }

    /** The end of the stream or an error: the link is destroyed, and RECV_END follows. */
    method EndRead(id: Id) returns (ghost steps: seq<Label>)
      requires Sound(View()) && stack == [Reading(id)] && id < |links| && links[id].socket >= 0
      modifies this
      ensures stack == [T.Callback]
      ensures |links| == old(|links|) && maplink.Keys <= old(maplink.Keys)
      ensures OnlyDestroyed(old(View()), View()) && events > old(events)
      ensures links[id].socket < 0 && id + 1 !in maplink
      ensures Reaches(old(View()), steps, View())
    {
      ghost var s := View();
      EndReadStarts(s, id);
      hide Sound, Reaches, Step, Enabled, T.LinkDestroy, Destroyed, OnlyDestroyed;
      stack := [AfterRead(id)];
      ghost var s1, t := View(), T.LinkDestroy(View(), id, true);
      ghost var more := LinkDestroy(id, true);
      DestroyedWithin(s, s1, View(), id);
      ReachesThen(s, [Read(Ends)], t, more, View());
      EndReadEnds(s, [Read(Ends)] + more, View(), id);
      steps := [Read(Ends)] + more + [FinishRead];
      stack := [T.Callback];
    }

    /** on_event_accept: what accept answers comes from results, then EAGAIN. */
    method OnEventAccept(id: Id, results: seq<Acceptance>) returns (ghost steps: seq<Label>, k: nat)
      requires Sound(View()) && stack == [Accepting(id)] && id < |links|
      modifies this
      ensures stack == [] && Reaches(old(View()), steps, View())
      ensures AcceptedFirst(old(View()), View(), results, k, events - old(events))
      ensures Findable(View(), old(|links|))
      ensures k < |results| && results[k].Accepts? ==> id < |links| && !CanAccept(id, results[k].fd)
    {
      ghost var s, sent := View(), events;
      ReachesNow(s);
      NothingAccepted(s, results);
      hide Reaches, Sound, AcceptedFirst;
      steps, k := [], 0;
      var accepting := true;
      while accepting
        invariant k <= |results| && stack == (if accepting then [Accepting(id)] else []) && id < |links|
        invariant AcceptedFirst(s, View(), results, k, events - old(events))
        invariant !accepting && k < |results| && results[k].Accepts? ==> !CanAccept(id, results[k].fd)
        invariant Reaches(s, steps, View()) && Sound(View())
        decreases |results| - k, accepting
      {
        accepting, steps := AcceptNext(id, results, k, s, steps, sent);
        if accepting {
          k := k + 1;
        }
      }
      LiveAreFindable(View(), |s.links|);
    }

    /** The loop's body after k descriptors. */
    method AcceptNext(id: Id, results: seq<Acceptance>, k: nat, ghost start: State, ghost before: seq<Label>,
                      ghost sent: nat)
        returns (accepting: bool, ghost steps: seq<Label>)
      requires Sound(View()) && stack == [Accepting(id)] && id < |links| && k <= |results|
      requires Reaches(start, before, View()) && AcceptedFirst(start, View(), results, k, events - sent)
      modifies this
      ensures stack == (if accepting then [Accepting(id)] else []) && |links| >= old(|links|)
      ensures accepting ==> k < |results|
      ensures !accepting && k < |results| && results[k].Accepts? ==> !CanAccept(id, results[k].fd)
      ensures Reaches(start, steps, View()) && Sound(View())
      ensures AcceptedFirst(start, View(), results, if accepting then k + 1 else k, events - sent)
    {
      ghost var t, told := View(), events - sent;
      var taken := AcceptFails;
      if k < |results| && (results[k].Accepts? ==> CanAccept(id, results[k].fd)) {
        taken := results[k];
      }
      hide Reaches, Sound, AcceptedFirst, WithAccepted, OnlyDestroyed;
      accepting := taken.Accepts?;
      steps := AcceptOnce(id, taken);
      ReachesSound(t, steps, View());
      if accepting {
        AcceptOneMore(start, t, View(), results, k, told, events - sent);
      } else {
        AcceptNoMore(start, t, results, k, told);
      }
      ReachesThen(start, before, t, steps, View());
      steps := before + steps;
    }

    /** What accept needs of the system: a listening socket, and a descriptor not in use. */
    predicate CanAccept(id: Id, fd: Descriptor)
      requires id < |links|
      reads this
    {
      MayAccept(descriptors, links, id, fd)
    }

    /** One turn of on_event_accept's loop. */
    method AcceptOnce(id: Id, taken: Acceptance) returns (ghost steps: seq<Label>)
      requires Sound(View()) && stack == [Accepting(id)] && id < |links| && (taken.Accepts? ==> CanAccept(id, taken.fd))
      modifies this
      ensures stack == if taken.Accepts? then [Accepting(id)] else []
      ensures |links| >= old(|links|) && Reaches(old(View()), steps, View())
      ensures taken.Accepts? ==> OnlyDestroyed(WithAccepted(old(View()), taken), View())
      ensures events >= old(events) + if taken.Accepts? && taken.attach then 1 else 0
      ensures !taken.Accepts? ==> View() == old(View()).(stack := []) && events == old(events)
    {
      ReachesBy(View(), Accept(taken));
      if taken.Accepts? {
        LoopsKeepSound(View(), Accept(taken));
        AcceptingStep(View(), taken);
        hide *;
        steps := TakeAccepted(taken);
      } else {
        steps := [Accept(taken)];
        stack := [];
      }
    }

    /** The new link in the maps, with epoll, and the application told. */
    method TakeAccepted(taken: Acceptance) returns (ghost steps: seq<Label>)
      requires InBounds(View()) && Enabled(View(), Accept(taken)) && taken.Accepts? && |links| + 1 < 0x8000_0000
      requires Reaches(View(), [Accept(taken)], Step(View(), Accept(taken)))
      requires Sound(Step(View(), Accept(taken)))
      requires AcceptsBy(View(), taken, Step(View(), Accept(taken)))
      modifies this
      ensures stack == old(stack) && |links| >= old(|links|) && Reaches(old(View()), steps, View())
      ensures OnlyDestroyed(WithAccepted(old(View()), taken), View())
      ensures events >= old(events) + if taken.attach then 1 else 0
    {
      ghost var s := View();
      hide Sound, Reaches, OnlyDestroyed, Step, Enabled, WithAccepted, T.AddTcpLink, Registration;
      steps := [Accept(taken)];
      var h := AddTcpLink(taken.fd, Accepted);
      if taken.attach {
        AttachToEpoll(h - 1, h);
        stack := [T.Callback] + stack;
        ghost var t := View();
        ghost var more := Callback();
        OnlyDestroyedThen(WithAccepted(s, taken), t, View());
        ReachesThen(s, steps, t, more, View());
        steps := steps + more;
      }
    }

    /** The head of a turn of the worker's loop. */
    method KeepAlive() returns (ghost steps: seq<Label>)
      requires Sound(View()) && stack == []
      modifies this
      ensures stack == [] && Reaches(old(View()), steps, View()) && steps != [] && steps[0] == Poll
      ensures dispatching <==> old(first == INVALID || keepAlive % 10 != 0 || first in maplink)
      ensures keepAlive == if old(first) == INVALID || !dispatching then old(keepAlive)
                           else if old(keepAlive) + 1 >= 10000 then 0 else old(keepAlive) + 1
      ensures OnlyDestroyed(old(View()).(keepAlive := keepAlive, dispatching := dispatching), View())
      ensures if dispatching && old(first) != INVALID && old(keepAlive) % 10 == 0 then events > old(events)
              else events == old(events) && links == old(links)
    {
      ghost var s := View();
      ReachesBy(s, Poll);
      steps := [Poll];
      dispatching := true;
      if first != INVALID {
        if keepAlive % 10 == 0 {
          var found, id := FindLink(first);
          if !found {
            dispatching := false;
            return;
          }
          steps := TellFirst(s);
          return;
        }
        keepAlive := CountTurn(keepAlive);
      }
    }

    /** KEEPALIVE to the first link. */
    method TellFirst(ghost s: State) returns (ghost steps: seq<Label>)
      requires Sound(s) && stack == [] && View() == s.(dispatching := true)
      requires s.first != INVALID && s.keepAlive % 10 == 0 && s.first in s.maplink
      modifies this
      ensures stack == [] && Reaches(s, steps, View()) && steps != [] && steps[0] == Poll
      ensures OnlyDestroyed(s.(keepAlive := CountTurn(s.keepAlive), dispatching := true), View())
      ensures dispatching && keepAlive == CountTurn(s.keepAlive) && events > old(events)
    {
      ReachesBy(s, Poll);
      WorkerKeepsSound(s, Poll);
      stack := [T.Callback, AfterKeepAlive];
      ghost var t := View();
      assert t == Step(s, Poll);
      hide Sound, Reaches, OnlyDestroyed;
      ghost var more := Callback();
      ReachesThen(s, [Poll], t, more, View());
      ReachesNext(s, [Poll] + more, View(), FinishKeepAlive);
      steps := [Poll] + more + [FinishKeepAlive];
      TurnCounted(s, t, View());
      stack := [];
      keepAlive := CountTurn(keepAlive);
    }

    /** The worker's answer to a hang-up: DISCONNECTED, then link_destroy without CLOSED. */
    method OnDisconnected(id: Id) returns (ghost steps: seq<Label>)
      requires Sound(View()) && stack == [T.Callback, AfterDisconnected(id)] && id < |links|
      modifies this
      ensures stack == [] && Reaches(old(View()), steps, View())
      ensures HungUp(old(View()), View(), id) && events > old(events)
      ensures id + 1 !in maplink
    {
      ghost var s := View();
      steps := Callback();
      ghost var t := View();
      ReachesSound(s, steps, t);
      PopKeepsSound(t);
      ReachesBy(t, FinishDisconnected);
      stack := [];
      ghost var t1 := View();
      assert t1 == Pop(t);
      ghost var more := LinkDestroy(id, false);
      HungUpAfter(s, t, t1, View(), id);
      ReachesThen(t, [FinishDisconnected], Step(t, FinishDisconnected), more, View());
      ReachesThen(s, steps, t, [FinishDisconnected] + more, View());
      steps := steps + ([FinishDisconnected] + more);
    }

    /** One event of the worker's loop. */
    method Handle(n: nat, flags: Flags, received: seq<Reception>, accepted: seq<Acceptance>)
        returns (ghost steps: seq<Label>, k: nat)
      requires Sound(View()) && stack == [] && dispatching && n < |attached|
      modifies this
      ensures stack == [] && Reaches(old(View()), steps, View()) && steps != [] && steps[0] == Event(n, flags)
      ensures Handled(old(View()), View(), old(attached[n].data) / 0x1_0000_0000, flags, received, accepted, k,
                      events - old(events))
    {
      ghost var s := View();
      ReachesBy(s, Event(n, flags));
      WorkerKeepsSound(s, Event(n, flags));
      steps, k := [Event(n, flags)], 0;
      var h := HandleOf(attached[n].data);
      var found, id := FindLink(h);
      if !found {
        return;
      }
      OverEmpty(s, id);
      ghost var sent := events;
      ghost var t, more := Step(s, Event(n, flags)), [];
      hide Step, Enabled, Sound, Reaches, HasRead, AcceptedFirst, HungUp;
      ReachesNow(t);
      if flags.disconnected {
        stack := [T.Callback, AfterDisconnected(id)];
        ghost var t0 := View();
        assert t0 == t;
        more := OnDisconnected(id);
        FromEmptyStack(s, t0, View(), id, received, accepted, k, events - sent);
      } else if links[id].kind == Listening {
        if flags.readable {
          stack := [Accepting(id)];
          ghost var t0 := View();
          assert t0 == t;
          more, k := OnEventAccept(id, accepted);
          FromEmptyStack(s, t0, View(), id, received, accepted, k, events - sent);
        }
      } else if links[id].kind == Connecting {
        if flags.readable || flags.writeable {
          links := links[id := links[id].(kind := Connected)];
        }
      } else if links[id].kind == Connected || links[id].kind == Accepted {
        if flags.readable {
          stack := [T.Callback, Reading(id)];
          ghost var t0 := View();
          assert t0 == t;
          more, k := OnEventRead(id, received);
          FromEmptyStack(s, t0, View(), id, received, accepted, k, events - sent);
        }
      }
      ReachesThen(s, steps, t, more, View());
      steps := steps + more;
    }

    /** One turn of free_all_link_map's loop. */
    method FreeOne(todo: seq<Id>, ghost start: State, ghost before: seq<Label>) returns (ghost steps: seq<Label>)
      requires Sound(View()) && stack == [Freeing(todo)] && todo != [] && Reaches(start, before, View())
      requires OnlyDestroyed(start, View()) && Listed(maplink.Keys, todo)
      modifies this
      ensures Sound(View()) && Reaches(start, steps, View())
      ensures stack == [Freeing(todo[1..])] && maplink.Keys <= old(maplink.Keys) && todo[0] + 1 !in maplink
      ensures OnlyDestroyed(start, View()) && Listed(maplink.Keys, todo[1..])
    {
      ghost var s := View();
      FreeingGoesOn(s, todo, start, before);
      hide Sound, Reaches, Step, Enabled, T.LinkDestroy, Destroyed, OnlyDestroyed;
      stack := [Freeing(todo[1..])];
      ghost var s1 := View();
      ghost var t := T.LinkDestroy(s1, todo[0], true);
      ghost var more := LinkDestroy(todo[0], true);
      DestroyedWithin(s, s1, View(), todo[0]);
      OnlyDestroyedThen(start, s, View());
      OneLessListed(s.maplink.Keys, maplink.Keys, todo);
      ReachesThen(start, before + [FreeNext], t, more, View());
      ReachesSound(t, more, View());
      steps := before + [FreeNext] + more;
    }

    /** free_all_link_map: with callbacks that only destroy, it ends with nothing registered or open. */
    method FreeAllLinkMap() returns (ghost steps: seq<Label>)
      requires Sound(View()) && stack == []
      modifies this
      ensures Reaches(old(View()), steps, View()) && stack == []
      ensures maplink == map[] && descriptors == {} && |links| == old(|links|)
      ensures forall i :: 0 <= i < |links| ==>
        var was := old(links)[i]; links[i] == if was.socket >= 0 then Closed(was) else was
    {
      ghost var s := View();
      ListCovers(s);
      FreeingStarts(s);
      hide Sound, Reaches, ByHandle, Step, Enabled, OnlyDestroyed, Listed;
      var todo := ByHandle(maplink, |links|);
      stack := [Freeing(todo)];
      steps := [FreeAll];
      while todo != []
        invariant stack == [Freeing(todo)] && Sound(View()) && Reaches(s, steps, View())
        invariant OnlyDestroyed(s, View())
        invariant Listed(maplink.Keys, todo)
        decreases |todo|
      {
        steps := FreeOne(todo, s, steps);
        todo := todo[1..];
      }
      NoneListed(maplink.Keys);
      FreeingDone(s, steps, View());
      AllClosed(s, View());
      steps := steps + [FreeNext];
      stack := [];
    }
  }
}
