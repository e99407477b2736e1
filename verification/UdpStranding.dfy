/** Which queued UDP datagrams can still leave: exactly those of a link that is registered or that somebody
    is destroying. A sender that found its link before the link was destroyed can queue one that cannot. */
module UdpStranding {
  import opened UdpSending
  import opened UdpConservation

  /** The link has left the registry, and neither the worker nor a destroyer is still at it. */
  predicate Abandoned(s: State, k: Link) {
    && HasQueue(s, k) && k <= s.links && k !in s.registered
    && !(s.worker.Passing? && k in s.worker.todo)
    && !((s.worker.Draining? || s.worker.Leaving?) && (k == s.worker.l || k in s.worker.todo))
    && (forall t :: t in s.threads ==> s.threads[t] != Destroying(k))
  }

  lemma StepKeepsAbandoned(s: State, l: Label, k: Link)
    requires Abandoned(s, k) && Enabled(s, l) && !(l.BeginDestroy? && l.l == k)
    ensures Abandoned(Step(s, l), k) && s.queues[k] <= Step(s, l).queues[k]
  {
    hide QueueFree;
  }

  /** What a sender that found the link earlier queues on it now is accepted, but stays there unless another
      destruction of the link begins: no pass sends it and nothing discards it. */
  lemma {:induction false} LateDatagramsStay(s: State, ls: seq<Label>, k: Link)
    requires Abandoned(s, k) && Legal(s, ls) && forall l :: l in ls ==> !(l.BeginDestroy? && l.l == k)
    ensures Abandoned(Run(s, ls), k) && s.queues[k] <= Run(s, ls).queues[k]
    decreases |ls|
  {
    hide Abandoned, Enabled, Step;
    if ls != [] {
      assert ls[0] in ls;
      StepKeepsAbandoned(s, ls[0], k);
      AbandonedHasQueue(s, k);
      AbandonedHasQueue(Step(s, ls[0]), k);
      LateDatagramsStay(Step(s, ls[0]), ls[1..], k);
    }
  }

  /** The first link of a run, with a sender that has been told to try again. */
  lemma WaitingSender(d: Datagram) returns (ls: seq<Label>)
    requires d.id == 0
    ensures Legal(INIT, ls)
    ensures Run(INIT, ls) == State(false, {1}, map[1 := []], 1, Resting, map[0 := Waiting(1, d)], [],
                                   [Request(1, d)], map[], map[0 := Flying(0)], map[1 := []])
  {
    hide Legal, Run;
    var begin := BeginSend(0, 1, d.data, d.dst);
    var s1 := Step(INIT, Create);
    var s2 := Step(s1, begin);
    RunOne(INIT, Create);
    RunExtends(INIT, [Create], begin);
    ls := [Create] + [begin];
    RunExtends(INIT, ls, SendAgain(0));
    ls := ls + [SendAgain(0)];
  }

  /** The link's destruction while that sender has not queued yet. */
  lemma LinkGone(d: Datagram) returns (ls: seq<Label>)
    requires d.id == 0
    ensures Legal(INIT, ls)
    ensures Run(INIT, ls) == State(false, {}, map[1 := []], 1, Resting, map[0 := Waiting(1, d)], [],
                                   [Request(1, d)], map[], map[0 := Flying(0)], map[1 := []])
  {
    ls := WaitingSender(d);
    hide Legal, Run;
    var s := Run(INIT, ls);
    RunExtends(INIT, ls, BeginDestroy(1, 1));
    ls := ls + [BeginDestroy(1, 1)];
    RunExtends(INIT, ls, Empty(1));
    ls := ls + [Empty(1)];
    RunExtends(INIT, ls, Unregister(1));
    ls := ls + [Unregister(1)];
    var s' := Run(INIT, ls);
    assert s'.threads == s.threads && s'.queues == s.queues && s'.registered == {} && s'.places == s.places;
  }

  /** It happens: a sender whose sendto was told to wait loses its link before it queues the datagram. */
  lemma LateSendHappens(d: Datagram) returns (ls: seq<Label>)
    requires d.id == 0
    ensures Legal(INIT, ls) && Abandoned(Run(INIT, ls), 1)
    ensures 0 in Run(INIT, ls).told && Run(INIT, ls).told[0] && Run(INIT, ls).queues[1] == [d]
  {
    ls := LinkGone(d);
    hide Legal, Run;
    RunExtends(INIT, ls, Push(0));
    ls := ls + [Push(0)];
    RunExtends(INIT, ls, RaiseFlag(0));
    ls := ls + [RaiseFlag(0)];
    RunExtends(INIT, ls, Unlock(0));
    ls := ls + [Unlock(0)];
  }

  lemma AbandonedHasQueue(s: State, k: Link)
    requires Abandoned(s, k)
    ensures k in s.queues
  {
  }

  // ---- What the locks keep ----

  /** During a pass the registry does not change: the links still to do are registered and distinct. */
  predicate PassSound(s: State) {
    && s.registered <= s.queues.Keys
    && match s.worker
       case Passing(todo) => todo <= s.registered
       case Draining(todo, l) => todo <= s.registered && l in s.registered && l !in todo
       case Leaving(todo, l) => todo <= s.registered && l in s.registered && l !in todo
       case _ => true
  }

  lemma StepKeepsPass(s: State, l: Label)
    requires PassSound(s) && Enabled(s, l)
    ensures PassSound(Step(s, l))
  {
    hide QueueFree;
  }

  /** What every reachable state satisfies. */
  ghost predicate Reachable(s: State) {
    Sound(s) && NoLostWork(s) && PassSound(s)
  }

  lemma StepKeepsReachable(s: State, l: Label)
    requires Reachable(s) && Enabled(s, l)
    ensures Reachable(Step(s, l))
  {
    hide Sound, NoLostWork, PassSound, Enabled, Step;
    StepKeepsSound(s, l);
    StepKeepsWork(s, l);
    StepKeepsPass(s, l);
  }

  lemma {:induction false} RunKeepsReachable(s: State, ls: seq<Label>)
    requires Reachable(s) && Legal(s, ls)
    ensures Reachable(Run(s, ls))
    decreases |ls|
  {
    hide Reachable, Enabled, Step;
    if ls != [] {
      StepKeepsReachable(s, ls[0]);
      RunKeepsReachable(Step(s, ls[0]), ls[1..]);
    }
  }

  // ---- Getting the head out ----

  predicate Destroys(l: Label, k: Link) {
    l.BeginDestroy? && l.l == k
  }

  /** The labels take the head out of link k's queue, without a new destroyer of k. */
  ghost predicate Takes(s: State, ls: seq<Label>, k: Link)
    requires HasHead(s, k)
  {
    && Legal(s, ls)
    && (forall l :: l in ls ==> !Destroys(l, k))
    && k in Run(s, ls).queues
    && s.queues[k][0] !in Run(s, ls).queues[k]
  }

  ghost predicate CanLeave(s: State, k: Link)
    requires HasHead(s, k)
  {
    exists ls :: Takes(s, ls, k)
  }

  lemma TakesAfter(s: State, l: Label, ls: seq<Label>, k: Link)
    requires Enabled(s, l) && !Destroys(l, k) && HasHead(s, k)
    requires HasHead(Step(s, l), k) && Step(s, l).queues[k][0] == s.queues[k][0] && Takes(Step(s, l), ls, k)
    ensures Takes(s, [l] + ls, k)
  {
    hide Enabled, Step;
    assert ([l] + ls)[1..] == ls;
  }

  /** Every datagram is in a queue once. */
  lemma HeadIsOnce(s: State, k: Link)
    requires Sound(s) && HasHead(s, k)
    ensures s.queues[k][0] !in s.queues[k][1..]
  {
    assert InPlace(s, k, Gone(s, k));
    var rest := s.queues[k][1..];
    forall i | 0 <= i < |rest| ensures rest[i] != s.queues[k][0] {
      assert InPlace(s, k, Gone(s, k) + 1 + i);
    }
  }

  lemma TakesNow(s: State, k: Link) returns (ls: seq<Label>)
    requires Reachable(s) && HasHead(s, k) && s.worker.Draining? && s.worker.l == k
    ensures Takes(s, ls, k)
  {
    var l := if s.queues[k][0].data == [] then WDrop else WSendOk;
    ls := [l];
    RunOne(s, l);
    HeadIsOnce(s, k);
  }

  // ---- Threads inside a queue's lock can always go on ----

  function Pushers(s: State): set<Thread> {
    set t | t in s.threads && s.threads[t].Pushed?
  }

  function Flaggers(s: State): set<Thread> {
    set t | t in s.threads && s.threads[t].Flagged?
  }

  /** The head of k's queue is where it was, and so is what could take it out. */
  predicate StillThere(s: State, s': State, k: Link)
    requires HasHead(s, k)
  {
    && HasHead(s', k) && s'.queues[k][0] == s.queues[k][0] && s'.registered == s.registered
    && forall t :: t in s.threads && s.threads[t] == Destroying(k) ==> t in s'.threads && s'.threads[t] == Destroying(k)
  }

  lemma RaisingGoesOn(s: State, t: Thread, k: Link)
    requires HasHead(s, k) && t in Pushers(s)
    ensures Enabled(s, RaiseFlag(t)) && StillThere(s, Step(s, RaiseFlag(t)), k)
    ensures Pushers(Step(s, RaiseFlag(t))) == Pushers(s) - {t}
  {
    hide QueueFree;
  }

  lemma UnlockingGoesOn(s: State, t: Thread, k: Link)
    requires HasHead(s, k) && t in Flaggers(s)
    ensures Enabled(s, Unlock(t)) && StillThere(s, Step(s, Unlock(t)), k)
    ensures Pushers(Step(s, Unlock(t))) == Pushers(s) && Flaggers(Step(s, Unlock(t))) == Flaggers(s) - {t}
  {
    hide QueueFree;
  }

  /** With nobody inside, only the worker can keep a queue locked. */
  lemma NobodyInside(s: State, l: Link)
    requires Pushers(s) == {} && Flaggers(s) == {}
    ensures QueueFree(s, l) <==> !((s.worker.Draining? || s.worker.Leaving?) && s.worker.l == l)
  {
    assert forall t :: t in s.threads && s.threads[t].Pushed? ==> t in Pushers(s);
    assert forall t :: t in s.threads && s.threads[t].Flagged? ==> t in Flaggers(s);
  }

  // ---- The worker's way to a registered link ----

  /** How far the worker is from the pass that reaches k. */
  function Rank(w: Worker, k: Link): nat {
    match w
    case Cleared => 1
    case SawFlag => 2
    case Resting => 3
    case _ => if YetToFinish(w, k) then 0 else 4
  }

  function Todo(w: Worker): set<Link> {
    match w
    case Passing(todo) => todo
    case Draining(todo, _) => todo
    case Leaving(todo, _) => todo
    case _ => {}
  }

  function Phase(w: Worker): nat {
    match w
    case Draining(_, _) => 2
    case Leaving(_, _) => 1
    case _ => 0
  }

  function Length(s: State): nat {
    if s.worker.Draining? && s.worker.l in s.queues then |s.queues[s.worker.l]| else 0
  }

  predicate Closer(s: State, s': State, k: Link) {
    var w, w' := s.worker, s'.worker;
    Rank(w', k) < Rank(w, k)
    || (Rank(w', k) == Rank(w, k)
        && (Todo(w') < Todo(w)
            || (Todo(w') == Todo(w) && (Phase(w') < Phase(w) || (Phase(w') == Phase(w) && Length(s') < Length(s))))))
  }

  /** The worker's step keeps the head in place and brings the worker closer to k. */
  predicate Advances(s: State, l: Label, k: Link)
    requires HasHead(s, k)
  {
    && WorkerOnly(l) && Enabled(s, l)
    && StillThere(s, Step(s, l), k)
    && Step(s, l).threads == s.threads
    && Closer(s, Step(s, l), k)
  }

  /** Pending work has the flag up when a new pass is needed. */
  lemma WorkerStarts(s: State, k: Link) returns (l: Label)
    requires RegistryFree(s) && Pushers(s) == {} && NoLostWork(s) && HasHead(s, k) && k in s.registered
    ensures Advances(s, l, k)
  {
    match s.worker
    case Resting =>
      assert !JustPushed(s, k) by {
        assert forall t :: t in s.threads && s.threads[t].Pushed? ==> t in Pushers(s);
      }
      l := WSee;
    case SawFlag => l := WClear;
    case Cleared => l := WLock;
  }

  lemma WorkerEnters(s: State, k: Link) returns (l: Label)
    requires s.worker.Passing? && Pushers(s) == {} && Flaggers(s) == {} && PassSound(s)
    requires s.queues.Keys == s.pushed.Keys
    requires HasHead(s, k) && k in s.registered
    ensures Advances(s, l, k)
  {
    var todo := s.worker.todo;
    if todo == {} {
      l := WEnd;
    } else {
      var next: Link :| next in todo && (k in todo ==> next == k);
      NobodyInside(s, next);
      assert next in s.queues.Keys;
      l := WEnter(next);
    }
    hide QueueFree;
  }

  /** Links before k are left as soon as their socket refuses. */
  lemma WorkerLeaves(s: State, k: Link) returns (l: Label)
    requires (s.worker.Draining? && s.worker.l != k) || s.worker.Leaving?
    requires PassSound(s) && s.queues.Keys == s.pushed.Keys && HasHead(s, k) && k in s.registered
    ensures Advances(s, l, k)
  {
    hide QueueFree;
    if s.worker.Leaving? {
      l := WLeave;
    } else {
      assert s.worker.l in s.queues.Keys;
      l := if s.queues[s.worker.l] != [] && s.queues[s.worker.l][0].data == [] then WDrop else WStop;
    }
  }

  /** The worker can always take a step that brings it closer to k. */
  lemma WorkerGoesOn(s: State, k: Link) returns (l: Label)
    requires Pushers(s) == {} && Flaggers(s) == {} && PassSound(s) && NoLostWork(s)
    requires s.queues.Keys == s.pushed.Keys
    requires HasHead(s, k) && k in s.registered && !(s.worker.Draining? && s.worker.l == k)
    ensures Advances(s, l, k)
  {
    hide Advances;
    match s.worker
    case Passing(_) => l := WorkerEnters(s, k);
    case Draining(_, _) => l := WorkerLeaves(s, k);
    case Leaving(_, _) => l := WorkerLeaves(s, k);
    case _ => l := WorkerStarts(s, k);
  }

  // ---- The exact condition ----

  /** Somebody is about to discard the link's queue. */
  predicate BeingDestroyed(s: State, k: Link) {
    exists t :: t in s.threads && s.threads[t] == Destroying(k)
  }

  /** A destroyer of an unregistered link finds its queue unlocked once senders are out. */
  lemma DestroyerTakes(s: State, k: Link) returns (ls: seq<Label>)
    requires PassSound(s) && HasHead(s, k) && k !in s.registered && BeingDestroyed(s, k)
    requires Pushers(s) == {} && Flaggers(s) == {}
    ensures Takes(s, ls, k)
  {
    var t :| t in s.threads && s.threads[t] == Destroying(k);
    NobodyInside(s, k);
    RunOne(s, Empty(t));
    ls := [Empty(t)];
  }

  /** Senders leave the locks, then the worker reaches the link or the destroyer empties it. */
  lemma {:induction false} HeadLeaves(s: State, k: Link) returns (ls: seq<Label>)
    requires Reachable(s) && HasHead(s, k) && (k in s.registered || BeingDestroyed(s, k))
    ensures Takes(s, ls, k)
    decreases Pushers(s), Flaggers(s), Rank(s.worker, k), Todo(s.worker), Phase(s.worker), Length(s)
  {
    if s.worker.Draining? && s.worker.l == k {
      ls := TakesNow(s, k);
    } else if Pushers(s) == {} && Flaggers(s) == {} && k !in s.registered {
      ls := DestroyerTakes(s, k);
    } else {
      var l;
      if Pushers(s) != {} {
        var t :| t in Pushers(s);
        l := RaiseFlag(t);
        RaisingGoesOn(s, t, k);
      } else if Flaggers(s) != {} {
        var t :| t in Flaggers(s);
        l := Unlock(t);
        UnlockingGoesOn(s, t, k);
      } else {
        l := WorkerGoesOn(s, k);
      }
      hide Reachable, Enabled, Step, QueueFree, Legal, Run, Rank, Takes;
      StepKeepsReachable(s, l);
      var more := HeadLeaves(Step(s, l), k);
      TakesAfter(s, l, more, k);
      ls := [l] + more;
    }
  }

  /** In every reachable state the first datagram of a queue can still leave it, if nobody new destroys the
      link, exactly when the link is registered or somebody is destroying it already. */
  lemma HeadCanLeaveExactly(ls: seq<Label>, k: Link)
    requires Legal(INIT, ls) && HasHead(Run(INIT, ls), k)
    ensures var s := Run(INIT, ls); CanLeave(s, k) <==> k in s.registered || BeingDestroyed(s, k)
  {
    var s := Run(INIT, ls);
    RunKeepsReachable(INIT, ls);
    if k in s.registered || BeingDestroyed(s, k) {
      var more := HeadLeaves(s, k);
      assert Takes(s, more, k);
    } else {
      assert Abandoned(s, k);
      forall more | Legal(s, more) && (forall l :: l in more ==> !Destroys(l, k)) ensures !Takes(s, more, k) {
        LateDatagramsStay(s, more, k);
        assert Run(s, more).queues[k][0] == s.queues[k][0];
      }
    }
  }
}
