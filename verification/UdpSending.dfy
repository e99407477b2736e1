/**
 Deferred sending over UDP: a drain worker and any number of sending, creating and destroying threads
 share one "work pending" flag and per-link queues, under a registry lock and one lock per queue.
 A transition system with one label per locked or atomic step.
 */
module UdpSending {
  import opened Bytes

  type Link = nat

  type Thread = nat

  /** An IP address and a port. */
  datatype Destination = Destination(address: nat, port: nat)

  datatype Datagram = Datagram(id: nat, data: seq<byte>, dst: Destination)

  /** What became of a datagram. All but DirectTx free a queued buffer. */
  datatype Event =
    | DirectTx(l: Link, d: Datagram)
    | QueuedTx(l: Link, d: Datagram)
    | DropEmpty(l: Link, d: Datagram)
    | Discard(l: Link, d: Datagram)

  /** do_send_buff: before and after reading the flag, after clearing it, then holding the registry
      lock between links, inside a link's queue lock, and about to leave that. */
  datatype Worker =
    | Resting
    | SawFlag
    | Cleared
    | Passing(todo: set<Link>)
    | Draining(todo: set<Link>, l: Link)
    | Leaving(todo: set<Link>, l: Link)

  datatype Activity =
    | Sending(l: Link, d: Datagram)   // link found, sendto not yet tried
    | Waiting(l: Link, d: Datagram)   // EAGAIN: copied, before the queue lock
    | Pushed(l: Link, d: Datagram)    // holding the queue lock, before the flag
    | Flagged(l: Link, d: Datagram)   // holding the queue lock, flag raised
    | Destroying(l: Link)             // before del_send_buff
    | Emptied(l: Link)                // before del_link

  /** Where a datagram is: with a sender, at the n-th place ever used in a link's queue, or at place n of
      the log. */
  datatype Place = Flying(t: Thread) | Queued(l: Link, n: nat) | Done(n: nat) | Refused

  datatype Request = Request(l: Link, d: Datagram)

  /** The code's state, then histories on which it never depends: what was asked of link_send_to (a
      datagram's id is its index there), what link_send_to answered, where each datagram is, and what was
      ever pushed on each queue. */
  datatype State = State(
    flag: bool, registered: set<Link>, queues: map<Link, seq<Datagram>>, links: nat,
    worker: Worker, threads: map<Thread, Activity>, log: seq<Event>,
    asked: seq<Request>, told: map<nat, bool>, places: map<nat, Place>, pushed: map<Link, seq<Datagram>>)

  const INIT := State(false, {}, map[], 0, Resting, map[], [], [], map[], map[], map[])

  datatype Label =
    | Create
    | BeginSend(t: Thread, l: Link, data: seq<byte>, dst: Destination)
    | SendOk(t: Thread)
    | SendFail(t: Thread)
    | SendAgain(t: Thread)
    | Push(t: Thread)
    | RaiseFlag(t: Thread)
    | Unlock(t: Thread)
    | BeginDestroy(t: Thread, l: Link)
    | Empty(t: Thread)
    | Unregister(t: Thread)
    | WSee
    | WClear
    | WLock
    | WEnter(l: Link)
    | WSendOk
    | WDrop
    | WStop
    | WLeave
    | WEnd

  predicate RegistryFree(s: State) {
    s.worker.Resting? || s.worker.SawFlag? || s.worker.Cleared?
  }

  predicate QueueFree(s: State, l: Link) {
    && !((s.worker.Draining? || s.worker.Leaving?) && s.worker.l == l)
    && (forall t :: t in s.threads && (s.threads[t].Pushed? || s.threads[t].Flagged?) ==> s.threads[t].l != l)
  }

  predicate Enabled(s: State, l: Label) {
    match l
    case Create => RegistryFree(s)
    case BeginSend(t, k, _, _) => t !in s.threads && RegistryFree(s) && k in s.registered
    case SendOk(t) => t in s.threads && s.threads[t].Sending?
    case SendFail(t) => t in s.threads && s.threads[t].Sending?
    case SendAgain(t) => t in s.threads && s.threads[t].Sending?
    case Push(t) => t in s.threads && s.threads[t].Waiting?
                    && QueueFree(s, s.threads[t].l) && HasQueue(s, s.threads[t].l)
    case RaiseFlag(t) => t in s.threads && s.threads[t].Pushed?
    case Unlock(t) => t in s.threads && s.threads[t].Flagged?
    case BeginDestroy(t, k) => t !in s.threads && RegistryFree(s) && k in s.queues
    case Empty(t) => t in s.threads && s.threads[t].Destroying?
                     && QueueFree(s, s.threads[t].l) && HasQueue(s, s.threads[t].l)
    case Unregister(t) => t in s.threads && s.threads[t].Emptied? && RegistryFree(s)
    case WSee => s.worker.Resting? && s.flag
    case WClear => s.worker.SawFlag?
    case WLock => s.worker.Cleared?
    case WEnter(k) => s.worker.Passing? && k in s.worker.todo && QueueFree(s, k) && HasQueue(s, k)
    case WSendOk => s.worker.Draining? && HasHead(s, s.worker.l) && s.queues[s.worker.l][0].data != []
    case WDrop => s.worker.Draining? && HasHead(s, s.worker.l) && s.queues[s.worker.l][0].data == []
    case WStop => s.worker.Draining? && HasQueue(s, s.worker.l)
                  && (HasHead(s, s.worker.l) ==> s.queues[s.worker.l][0].data != [])
    case WLeave => s.worker.Leaving?
    case WEnd => s.worker == Passing({})
  }

  predicate HasQueue(s: State, l: Link) {
    l in s.queues
  }

  predicate HasHead(s: State, l: Link) {
    HasQueue(s, l) && s.queues[l] != []
  }

  function PushedOn(s: State, l: Link): seq<Datagram> {
    if l in s.pushed then s.pushed[l] else []
  }

  /** How many datagrams have left a link's queue. */
  function Gone(s: State, l: Link): int
    requires HasQueue(s, l)
  {
    |PushedOn(s, l)| - |s.queues[l]|
  }

  function Discards(l: Link, q: seq<Datagram>): (es: seq<Event>)
    ensures |es| == |q| && forall i :: 0 <= i < |q| ==> es[i] == Discard(l, q[i])
  {
    seq(|q|, i requires 0 <= i < |q| => Discard(l, q[i]))
  }

  /** Where a datagram is once link k's queue has been discarded into the log. */
  function AfterEmpty(s: State, k: Link, p: Place): Place
    requires HasQueue(s, k)
  {
    if p.Queued? && p.l == k && p.n >= Gone(s, k) then Done(|s.log| + p.n - Gone(s, k)) else p
  }

  /** Taking the head of a queue: the buffer is freed, with the given event. */
  function TakeHead(s: State, l: Link, e: Event): State
    requires HasHead(s, l)
  {
    s.(queues := s.queues[l := s.queues[l][1..]], log := s.log + [e],
       places := s.places[s.queues[l][0].id := Done(|s.log|)])
  }

  function Step(s: State, l: Label): State
    requires Enabled(s, l)
  {
    match l
    case Create =>
      var k := s.links + 1;
      s.(registered := s.registered + {k}, queues := s.queues[k := []], pushed := s.pushed[k := []], links := k)
    case BeginSend(t, k, data, dst) =>
      var d := Datagram(|s.asked|, data, dst);
      s.(threads := s.threads[t := Sending(k, d)], asked := s.asked + [Request(k, d)],
         places := s.places[d.id := Flying(t)])
    case SendOk(t) =>
      var a := s.threads[t];
      s.(threads := s.threads - {t}, log := s.log + [DirectTx(a.l, a.d)], told := s.told[a.d.id := true],
         places := s.places[a.d.id := Done(|s.log|)])
    case SendFail(t) =>
      var d := s.threads[t].d;
      s.(threads := s.threads - {t}, told := s.told[d.id := false], places := s.places[d.id := Refused])
    case SendAgain(t) => s.(threads := s.threads[t := Waiting(s.threads[t].l, s.threads[t].d)])
    case Push(t) =>
      var a := s.threads[t];
      s.(threads := s.threads[t := Pushed(a.l, a.d)], queues := s.queues[a.l := s.queues[a.l] + [a.d]],
         pushed := s.pushed[a.l := PushedOn(s, a.l) + [a.d]],
         places := s.places[a.d.id := Queued(a.l, |PushedOn(s, a.l)|)])
    case RaiseFlag(t) => s.(flag := true, threads := s.threads[t := Flagged(s.threads[t].l, s.threads[t].d)])
    case Unlock(t) => s.(threads := s.threads - {t}, told := s.told[s.threads[t].d.id := true])
    case BeginDestroy(t, k) => s.(threads := s.threads[t := Destroying(k)])
    case Empty(t) =>
      var k := s.threads[t].l;
      s.(threads := s.threads[t := Emptied(k)], queues := s.queues[k := []], log := s.log + Discards(k, s.queues[k]),
         places := map id | id in s.places :: AfterEmpty(s, k, s.places[id]))
    case Unregister(t) => s.(threads := s.threads - {t}, registered := s.registered - {s.threads[t].l})
    case WSee => s.(worker := SawFlag)
    case WClear => s.(flag := false, worker := Cleared)
    case WLock => s.(worker := Passing(s.registered))
    case WEnter(k) => s.(worker := Draining(s.worker.todo - {k}, k))
    case WSendOk => TakeHead(s, s.worker.l, QueuedTx(s.worker.l, s.queues[s.worker.l][0]))
    case WDrop => TakeHead(s, s.worker.l, DropEmpty(s.worker.l, s.queues[s.worker.l][0]))
    case WStop => s.(flag := s.flag || s.queues[s.worker.l] != [], worker := Leaving(s.worker.todo, s.worker.l))
    case WLeave => s.(worker := Passing(s.worker.todo))
    case WEnd => s.(worker := Resting)
  }

  predicate Legal(s: State, ls: seq<Label>)
    decreases |ls|
  {
    ls == [] || (Enabled(s, ls[0]) && Legal(Step(s, ls[0]), ls[1..]))
  }

  function Run(s: State, ls: seq<Label>): State
    requires Legal(s, ls)
    decreases |ls|
  {
    if ls == [] then s else Run(Step(s, ls[0]), ls[1..])
  }

  lemma {:induction false} RunConcat(s: State, a: seq<Label>, b: seq<Label>)
    requires Legal(s, a)
    ensures Legal(s, a + b) <==> Legal(Run(s, a), b)
    ensures Legal(s, a + b) ==> Run(s, a + b) == Run(Run(s, a), b)
    decreases |a|
  {
    if a == [] {
      assert a + b == b;
    } else {
      assert (a + b)[0] == a[0] && (a + b)[1..] == a[1..] + b;
      RunConcat(Step(s, a[0]), a[1..], b);
    }
  }

  lemma RunOne(s: State, l: Label)
    requires Enabled(s, l)
    ensures Legal(s, [l]) && Run(s, [l]) == Step(s, l)
  {
    assert [l][1..] == [];
    assert Legal(Step(s, l), [l][1..]);
  }

  lemma RunExtends(s: State, ls: seq<Label>, l: Label)
    requires Legal(s, ls) && Enabled(Run(s, ls), l)
    ensures Legal(s, ls + [l]) && Run(s, ls + [l]) == Step(Run(s, ls), l)
  {
    RunConcat(s, ls, [l]);
    assert [l][1..] == [];
    assert Legal(Step(Run(s, ls), l), [l][1..]);
  }

  // ---- No lost pending work ----

  /** The current pass has not finished with the link. */
  predicate YetToFinish(w: Worker, l: Link) {
    match w
    case Cleared => true
    case Passing(todo) => l in todo
    case Draining(todo, k) => l in todo || l == k
    case Leaving(todo, _) => l in todo
    case _ => false
  }

  ghost predicate JustPushed(s: State, l: Link) {
    exists t :: t in s.threads && s.threads[t].Pushed? && s.threads[t].l == l
  }

  /** A registered link with queued datagrams is never forgotten. */
  ghost predicate NoLostWork(s: State) {
    forall l :: l in s.registered && HasHead(s, l) ==> s.flag || JustPushed(s, l) || YetToFinish(s.worker, l)
  }

  lemma StepKeepsWork(s: State, l: Label)
    requires NoLostWork(s) && Enabled(s, l)
    ensures NoLostWork(Step(s, l))
  {
    var s' := Step(s, l);
    forall k | k in s'.registered && HasHead(s', k)
      ensures s'.flag || JustPushed(s', k) || YetToFinish(s'.worker, k)
    {
      if l.Push? && s.threads[l.t].l == k {
        assert s'.threads[l.t].Pushed?;
      } else {
        assert HasHead(s, k) && k in s.registered;
        if !s'.flag && JustPushed(s, k) {
          var t :| t in s.threads && s.threads[t].Pushed? && s.threads[t].l == k;
          assert t in s'.threads && s'.threads[t].Pushed?;
        }
      }
    }
  }

  lemma {:induction false} PendingWorkIsNeverLost(s: State, ls: seq<Label>)
    requires NoLostWork(s) && Legal(s, ls)
    ensures NoLostWork(Run(s, ls))
    decreases |ls|
  {
    if ls != [] {
      StepKeepsWork(s, ls[0]);
      PendingWorkIsNeverLost(Step(s, ls[0]), ls[1..]);
    }
  }

  // ---- A pass nobody interrupts ----

  predicate WorkerOnly(l: Label) {
    l.WSee? || l.WClear? || l.WLock? || l.WEnter? || l.WSendOk? || l.WDrop? || l.WStop? || l.WLeave? || l.WEnd?
  }

  ghost predicate SomeLeft(s: State, links: set<Link>) {
    exists l :: l in links && HasHead(s, l)
  }

  /** While the worker runs alone, the flag tells whether a link it is done with still has datagrams. */
  ghost predicate FlagTells(s: State) {
    match s.worker
    case Resting => s.flag <==> SomeLeft(s, s.registered)
    case SawFlag => true
    case Cleared => !s.flag
    case Passing(todo) => todo <= s.registered && (s.flag <==> SomeLeft(s, s.registered - todo))
    case Draining(todo, l) => l !in todo && l in s.registered && todo <= s.registered
                              && (s.flag <==> SomeLeft(s, s.registered - todo - {l}))
    case Leaving(todo, l) => todo <= s.registered && (s.flag <==> SomeLeft(s, s.registered - todo))
  }

  lemma WorkerStepTells(s: State, l: Label)
    requires FlagTells(s) && Enabled(s, l) && WorkerOnly(l)
    ensures FlagTells(Step(s, l))
  {
    var s' := Step(s, l);
    match l
    case WLock =>
      assert s.registered - s'.worker.todo == {};
    case WEnter(k) =>
      assert s.registered - s'.worker.todo - {k} == s.registered - s.worker.todo;
    case WEnd =>
      assert s.registered - {} == s.registered;
    case WStop =>
      var k, finished := s.worker.l, s.registered - s.worker.todo;
      assert finished == finished - {k} + {k};
      assert SomeLeft(s', finished) <==> SomeLeft(s, finished - {k}) || HasHead(s, k);
    case WSendOk => TakingKeepsOthers(s, s');
    case WDrop => TakingKeepsOthers(s, s');
    case _ =>
  }

  lemma TakingKeepsOthers(s: State, s': State)
    requires s.worker.Draining? && FlagTells(s)
    requires s' == s.(queues := s'.queues, log := s'.log, places := s'.places)
    requires forall l :: l != s.worker.l ==> (HasHead(s, l) <==> HasHead(s', l))
    ensures FlagTells(s')
  {
    var others := s.registered - s.worker.todo - {s.worker.l};
    assert SomeLeft(s, others) <==> SomeLeft(s', others);
  }

  /** After a pass that nobody interrupts, the flag is up exactly when some registered link still has
      datagrams queued, whatever the sends returned. */
  lemma {:induction false} UninterruptedPassSettlesFlag(s: State, ls: seq<Label>)
    requires FlagTells(s) && Legal(s, ls) && forall l :: l in ls ==> WorkerOnly(l)
    ensures FlagTells(Run(s, ls))
    ensures Run(s, ls).worker.Resting? ==> (Run(s, ls).flag <==> SomeLeft(Run(s, ls), Run(s, ls).registered))
    decreases |ls|
  {
    if ls != [] {
      assert ls[0] in ls;
      WorkerStepTells(s, ls[0]);
      UninterruptedPassSettlesFlag(Step(s, ls[0]), ls[1..]);
    }
  }
}
