/** Every datagram handed to a UDP link is in exactly one place, whatever the interleaving. */
module UdpConservation {
  import opened UdpSending

  /** The datagram was asked of that link, and that is where it is. */
  predicate At(s: State, l: Link, d: Datagram, p: Place) {
    && d.id < |s.asked|
    && s.asked[d.id] == Request(l, d)
    && d.id in s.places
    && s.places[d.id] == p
  }

  predicate Carries(a: Activity) {
    a.Sending? || a.Waiting?
  }

  predicate Holds(a: Activity) {
    a.Pushed? || a.Flagged?
  }

  ghost predicate ThreadsSound(s: State) {
    && (forall t :: t in s.threads && Carries(s.threads[t]) ==> At(s, s.threads[t].l, s.threads[t].d, Flying(t)))
    && (forall t :: t in s.threads && Holds(s.threads[t]) ==> Accepted(s, s.threads[t].d.id))
  }

  /** A queue is what was pushed on it and has not left; every datagram in it is there once. */
  ghost predicate QueuesSound(s: State) {
    && s.queues.Keys == s.pushed.Keys
    && (forall l :: l in s.queues ==> l <= s.links && |s.queues[l]| <= |PushedOn(s, l)|)
    && (forall l, n :: l in s.queues && Gone(s, l) <= n < |PushedOn(s, l)| ==> InPlace(s, l, n))
  }

  /** The n-th datagram pushed on the link's queue, still in it. */
  predicate InPlace(s: State, l: Link, n: nat)
    requires HasQueue(s, l)
  {
    && 0 <= Gone(s, l) <= n < |PushedOn(s, l)|
    && s.queues[l][n - Gone(s, l)] == PushedOn(s, l)[n]
    && At(s, l, PushedOn(s, l)[n], Queued(l, n))
  }

  ghost predicate LogSound(s: State) {
    && (forall i :: 0 <= i < |s.log| ==> At(s, s.log[i].l, s.log[i].d, Done(i)))
    && (forall i :: 0 <= i < |s.log| ==> s.log[i].QueuedTx? ==> s.log[i].d.data != [])
    && (forall i :: 0 <= i < |s.log| ==> s.log[i].DropEmpty? ==> s.log[i].d.data == [])
  }

  predicate Accepted(s: State, id: nat) {
    id in s.places && (s.places[id].Queued? || s.places[id].Done?)
  }

  ghost predicate AnswersSound(s: State) {
    forall id :: id in s.told ==> id in s.places && (if s.told[id] then Accepted(s, id) else s.places[id] == Refused)
  }

  /** Nothing is lost: a datagram is where it is said to be. */
  predicate Found(s: State, id: nat, p: Place) {
    match p
    case Flying(t) => t in s.threads && Carries(s.threads[t]) && s.threads[t].d.id == id
    case Queued(l, n) => HasQueue(s, l) && Gone(s, l) <= n < |PushedOn(s, l)| && PushedOn(s, l)[n].id == id
    case Done(i) => i < |s.log| && s.log[i].d.id == id
    case Refused => id in s.told && !s.told[id]
  }

  ghost predicate PlacesSound(s: State) {
    forall id: nat :: (id in s.places <==> id < |s.asked|) && (id in s.places ==> Found(s, id, s.places[id]))
  }

  ghost predicate Sound(s: State) {
    ThreadsSound(s) && QueuesSound(s) && LogSound(s) && AnswersSound(s) && PlacesSound(s)
  }

  /** Steps that move no datagram. */
  predicate Still(l: Label) {
    l.SendAgain? || l.RaiseFlag? || l.Unlock? || l.BeginDestroy? || l.Unregister?
    || (WorkerOnly(l) && !l.WSendOk? && !l.WDrop?)
  }

  /** What a step that leaves the histories of datagrams alone keeps. */
  lemma SameHistory(s: State, s': State)
    requires QueuesSound(s) && LogSound(s)
    requires s' == s.(flag := s'.flag, registered := s'.registered, worker := s'.worker,
                      threads := s'.threads, told := s'.told)
    ensures QueuesSound(s') && LogSound(s')
  {
    forall l, n | l in s'.queues && Gone(s', l) <= n < |PushedOn(s', l)| ensures InPlace(s', l, n) {
      assert InPlace(s, l, n);
    }
  }

  lemma WorkerKeepsSound(s: State, l: Label)
    requires Sound(s) && Enabled(s, l) && Still(l) && WorkerOnly(l)
    ensures Sound(Step(s, l))
  {
    var s' := Step(s, l);
    assert s' == s.(flag := s'.flag, worker := s'.worker);
    SameHistory(s, s');
    SamePlaces(s, s');
  }

  /** What a step keeps that only changes what threads do with datagrams they no longer carry. */
  lemma SamePlaces(s: State, s': State)
    requires PlacesSound(s)
    requires s' == s.(flag := s'.flag, registered := s'.registered, worker := s'.worker,
                      threads := s'.threads, told := s'.told)
    requires forall id :: id in s.told && !s.told[id] ==> id in s'.told && !s'.told[id]
    requires forall t :: t in s.threads && Carries(s.threads[t]) ==>
      t in s'.threads && Carries(s'.threads[t]) && s'.threads[t].d == s.threads[t].d
    ensures PlacesSound(s')
  {
    forall id: nat | id in s'.places ensures Found(s', id, s'.places[id]) {
      assert Found(s, id, s.places[id]);
    }
  }

  lemma ThreadKeepsThreads(s: State, l: Label, t: Thread)
    requires ThreadsSound(s) && AnswersSound(s) && Enabled(s, l) && Still(l) && !WorkerOnly(l) && l.t == t
    ensures ThreadsSound(Step(s, l)) && AnswersSound(Step(s, l))
  {
    hide QueueFree;
    assert l.Unlock? ==> Accepted(s, s.threads[t].d.id);
  }

  lemma ThreadKeepsSound(s: State, l: Label, t: Thread)
    requires Sound(s) && Enabled(s, l) && Still(l) && !WorkerOnly(l) && l.t == t
    ensures Sound(Step(s, l))
  {
    ThreadKeepsThreads(s, l, t);
    ThreadStill(s, l, t);
    hide Step, Enabled, ThreadsSound, AnswersSound, QueuesSound, LogSound, PlacesSound;
    SameHistory(s, Step(s, l));
    SamePlaces(s, Step(s, l));
  }

  lemma ThreadStill(s: State, l: Label, t: Thread)
    requires ThreadsSound(s) && AnswersSound(s) && Enabled(s, l) && Still(l) && !WorkerOnly(l) && l.t == t
    ensures var s' := Step(s, l);
      && s' == s.(flag := s'.flag, registered := s'.registered, worker := s'.worker,
                  threads := s'.threads, told := s'.told)
      && (forall id :: id in s.told && !s.told[id] ==> id in s'.told && !s'.told[id])
      && (forall u :: u in s.threads && Carries(s.threads[u]) ==>
           u in s'.threads && Carries(s'.threads[u]) && s'.threads[u].d == s.threads[u].d)
  {
    hide QueueFree;
    assert l.Unlock? ==> Accepted(s, s.threads[t].d.id);
  }

  lemma CreateKeepsSound(s: State)
    requires Sound(s) && Enabled(s, Create)
    ensures Sound(Step(s, Create))
  {
    var s' := Step(s, Create);
    forall k, n | k in s'.queues && Gone(s', k) <= n < |PushedOn(s', k)| ensures InPlace(s', k, n) {
      assert k in s.queues && InPlace(s, k, n);
    }
    forall id: nat | id in s'.places ensures Found(s', id, s'.places[id]) {
      assert Found(s, id, s.places[id]);
    }
  }

  lemma LogApart(s: State, s': State)
    requires LogSound(s) && s'.log == s.log && |s.asked| <= |s'.asked|
    requires forall id: nat :: id < |s.asked| ==> s'.asked[id] == s.asked[id]
    requires forall id :: id in s.places && s.places[id].Done? ==> id in s'.places && s'.places[id] == s.places[id]
    ensures LogSound(s')
  {
    forall i | 0 <= i < |s'.log| ensures At(s', s'.log[i].l, s'.log[i].d, Done(i)) {
      assert At(s, s.log[i].l, s.log[i].d, Done(i));
    }
  }

  /** Giving a datagram with a thread a new place outside the queues, the thread forgetting it. */
  lemma QueuesApart(s: State, s': State)
    requires QueuesSound(s) && s'.queues == s.queues && s'.pushed == s.pushed && s'.links == s.links
    requires |s.asked| <= |s'.asked| && forall id: nat :: id < |s.asked| ==> s'.asked[id] == s.asked[id]
    requires forall id :: id in s.places && s.places[id].Queued? ==> id in s'.places && s'.places[id] == s.places[id]
    ensures QueuesSound(s')
  {
    forall k, n | k in s'.queues && Gone(s', k) <= n < |PushedOn(s', k)| ensures InPlace(s', k, n) {
      assert InPlace(s, k, n);
    }
  }

  lemma BeginSendKeepsSound(s: State, l: Label)
    requires Sound(s) && Enabled(s, l) && l.BeginSend?
    ensures Sound(Step(s, l))
  {
    BeginSendKeepsThreads(s, l);
    var s' := Step(s, l);
    hide QueueFree, ThreadsSound, AnswersSound, QueuesSound, LogSound;
    QueuesApart(s, s');
    LogApart(s, s');
    forall id: nat | id in s'.places ensures Found(s', id, s'.places[id]) {
      assert id < |s.asked| ==> Found(s, id, s.places[id]);
    }
  }

  lemma BeginSendKeepsThreads(s: State, l: Label)
    requires ThreadsSound(s) && AnswersSound(s) && PlacesSound(s) && Enabled(s, l) && l.BeginSend?
    ensures ThreadsSound(Step(s, l)) && AnswersSound(Step(s, l))
  {
    hide QueueFree;
  }

  lemma AnsweringKeepsThreads(s: State, l: Label, t: Thread)
    requires ThreadsSound(s) && AnswersSound(s) && Enabled(s, l) && (l == SendOk(t) || l == SendFail(t))
    ensures ThreadsSound(Step(s, l)) && AnswersSound(Step(s, l))
  {
    hide QueueFree;
    assert At(s, s.threads[t].l, s.threads[t].d, Flying(t));
  }

  lemma PushKeepsThreads(s: State, t: Thread)
    requires ThreadsSound(s) && AnswersSound(s) && Enabled(s, Push(t))
    ensures ThreadsSound(Step(s, Push(t))) && AnswersSound(Step(s, Push(t)))
  {
    hide QueueFree;
    assert At(s, s.threads[t].l, s.threads[t].d, Flying(t));
  }

  lemma SendFailKeepsSound(s: State, t: Thread)
    requires Sound(s) && Enabled(s, SendFail(t))
    ensures Sound(Step(s, SendFail(t)))
  {
    AnsweringKeepsThreads(s, SendFail(t), t);
    var s' := Step(s, SendFail(t));
    assert At(s, s.threads[t].l, s.threads[t].d, Flying(t));
    SendFailKeepsPlaces(s, t);
    QueuesApart(s, s');
    LogApart(s, s');
    hide QueueFree, ThreadsSound, AnswersSound, QueuesSound, LogSound, PlacesSound;
  }

  lemma SendFailKeepsPlaces(s: State, t: Thread)
    requires ThreadsSound(s) && PlacesSound(s) && Enabled(s, SendFail(t))
    ensures PlacesSound(Step(s, SendFail(t)))
  {
    hide QueueFree;
    var s' := Step(s, SendFail(t));
    assert At(s, s.threads[t].l, s.threads[t].d, Flying(t));
    forall id: nat | id in s'.places ensures Found(s', id, s'.places[id]) {
      assert Found(s, id, s.places[id]);
    }
  }

  /** Logging an event for a datagram that a thread carries or a queue holds. */
  lemma LogGrows(s: State, s': State, e: Event, p: Place)
    requires LogSound(s) && At(s, e.l, e.d, p) && !p.Done?
    requires s'.asked == s.asked && s'.log == s.log + [e] && s'.places == s.places[e.d.id := Done(|s.log|)]
    requires (e.QueuedTx? ==> e.d.data != []) && (e.DropEmpty? ==> e.d.data == [])
    ensures LogSound(s')
  {
  }

  lemma SendOkKeepsSound(s: State, t: Thread)
    requires Sound(s) && Enabled(s, SendOk(t))
    ensures Sound(Step(s, SendOk(t)))
  {
    AnsweringKeepsThreads(s, SendOk(t), t);
    var s', a := Step(s, SendOk(t)), s.threads[t];
    assert At(s, a.l, a.d, Flying(t));
    hide QueueFree, QueuesSound, LogSound, ThreadsSound, AnswersSound;
    QueuesApart(s, s');
    LogGrows(s, s', DirectTx(a.l, a.d), Flying(t));
    SendOkKeepsPlaces(s, t);
    hide PlacesSound;
  }

  lemma SendOkKeepsPlaces(s: State, t: Thread)
    requires ThreadsSound(s) && PlacesSound(s) && Enabled(s, SendOk(t))
    ensures PlacesSound(Step(s, SendOk(t)))
  {
    hide QueueFree;
    var s' := Step(s, SendOk(t));
    assert At(s, s.threads[t].l, s.threads[t].d, Flying(t));
    forall id: nat | id in s'.places ensures Found(s', id, s'.places[id]) {
      assert Found(s, id, s.places[id]);
    }
  }

  lemma PushKeepsQueues(s: State, t: Thread)
    requires ThreadsSound(s) && QueuesSound(s) && LogSound(s) && Enabled(s, Push(t))
    ensures QueuesSound(Step(s, Push(t))) && LogSound(Step(s, Push(t)))
  {
    hide QueueFree;
    var s', a := Step(s, Push(t)), s.threads[t];
    assert At(s, a.l, a.d, Flying(t));
    forall k, n | k in s'.queues && Gone(s', k) <= n < |PushedOn(s', k)| ensures InPlace(s', k, n) {
      assert Gone(s', k) == Gone(s, k);
      assert n < |PushedOn(s, k)| ==> InPlace(s, k, n);
    }
  }

  lemma PushKeepsSound(s: State, t: Thread)
    requires Sound(s) && Enabled(s, Push(t))
    ensures Sound(Step(s, Push(t)))
  {
    PushKeepsQueues(s, t);
    PushKeepsPlaces(s, t);
    PushKeepsThreads(s, t);
    hide QueueFree, QueuesSound, LogSound, PlacesSound, ThreadsSound, AnswersSound;
  }

  lemma PushKeepsPlaces(s: State, t: Thread)
    requires ThreadsSound(s) && QueuesSound(s) && PlacesSound(s) && Enabled(s, Push(t))
    ensures PlacesSound(Step(s, Push(t)))
  {
    hide QueueFree;
    var s', a := Step(s, Push(t)), s.threads[t];
    assert At(s, a.l, a.d, Flying(t));
    forall id: nat | id in s'.places ensures Found(s', id, s'.places[id]) {
      assert Found(s, id, s.places[id]);
    }
  }

  lemma EmptyKeepsQueues(s: State, t: Thread)
    requires QueuesSound(s) && Enabled(s, Empty(t))
    ensures QueuesSound(Step(s, Empty(t)))
  {
    hide QueueFree;
    var s', k := Step(s, Empty(t)), s.threads[t].l;
    forall j, n | j in s'.queues && Gone(s', j) <= n < |PushedOn(s', j)| ensures InPlace(s', j, n) {
      assert j != k && InPlace(s, j, n);
    }
  }

  lemma EmptyKeepsLog(s: State, t: Thread)
    requires QueuesSound(s) && LogSound(s) && Enabled(s, Empty(t))
    ensures LogSound(Step(s, Empty(t)))
  {
    hide QueueFree;
    var s', k := Step(s, Empty(t)), s.threads[t].l;
    forall i | 0 <= i < |s'.log| ensures At(s', s'.log[i].l, s'.log[i].d, Done(i)) {
      if i >= |s.log| {
        assert InPlace(s, k, i - |s.log| + Gone(s, k));
      } else {
        assert At(s, s.log[i].l, s.log[i].d, Done(i));
      }
    }
  }

  lemma EmptyKeepsPlaces(s: State, t: Thread)
    requires QueuesSound(s) && PlacesSound(s) && Enabled(s, Empty(t))
    ensures PlacesSound(Step(s, Empty(t)))
  {
    hide QueueFree;
    var s', k := Step(s, Empty(t)), s.threads[t].l;
    forall id: nat | id in s'.places ensures Found(s', id, s'.places[id]) {
      assert Found(s, id, s.places[id]);
      if s.places[id].Queued? && s.places[id].l == k {
        assert InPlace(s, k, s.places[id].n);
      }
    }
  }

  lemma EmptyKeepsSound(s: State, t: Thread)
    requires Sound(s) && Enabled(s, Empty(t))
    ensures Sound(Step(s, Empty(t)))
  {
    EmptyKeepsQueues(s, t);
    EmptyKeepsLog(s, t);
    EmptyKeepsPlaces(s, t);
    EmptyKeepsThreads(s, t);
    hide QueueFree, QueuesSound, LogSound, PlacesSound, ThreadsSound, AnswersSound;
  }

  lemma EmptyKeepsThreads(s: State, t: Thread)
    requires ThreadsSound(s) && AnswersSound(s) && Enabled(s, Empty(t))
    ensures ThreadsSound(Step(s, Empty(t))) && AnswersSound(Step(s, Empty(t)))
  {
    hide QueueFree;
  }

  lemma TakingKeepsQueues(s: State, e: Event)
    requires QueuesSound(s) && HasHead(s, e.l) && e.d == s.queues[e.l][0]
    ensures QueuesSound(TakeHead(s, e.l, e))
    ensures At(s, e.l, e.d, Queued(e.l, Gone(s, e.l)))
  {
    var s' := TakeHead(s, e.l, e);
    assert InPlace(s, e.l, Gone(s, e.l));
    forall k, n | k in s'.queues && Gone(s', k) <= n < |PushedOn(s', k)| ensures InPlace(s', k, n) {
      assert InPlace(s, k, n);
    }
  }

  lemma TakingKeepsSound(s: State, e: Event)
    requires Sound(s) && HasHead(s, e.l) && e.d == s.queues[e.l][0]
    requires e.QueuedTx? ==> e.d.data != []
    requires e.DropEmpty? ==> e.d.data == []
    ensures Sound(TakeHead(s, e.l, e))
  {
    var s' := TakeHead(s, e.l, e);
    TakingKeepsQueues(s, e);
    LogGrows(s, s', e, Queued(e.l, Gone(s, e.l)));
    TakingKeepsPlaces(s, e);
    hide QueuesSound, LogSound, PlacesSound;
  }

  lemma TakingKeepsPlaces(s: State, e: Event)
    requires QueuesSound(s) && PlacesSound(s) && HasHead(s, e.l) && e.d == s.queues[e.l][0]
    ensures PlacesSound(TakeHead(s, e.l, e))
  {
    var s' := TakeHead(s, e.l, e);
    assert InPlace(s, e.l, Gone(s, e.l));
    forall id: nat | id in s'.places ensures Found(s', id, s'.places[id]) {
      assert Found(s, id, s.places[id]);
    }
  }

  lemma StepKeepsSound(s: State, l: Label)
    requires Sound(s) && Enabled(s, l)
    ensures Sound(Step(s, l))
  {
    hide Sound;
    match l
    case Create => CreateKeepsSound(s);
    case BeginSend(_, _, _, _) => BeginSendKeepsSound(s, l);
    case SendOk(t) => SendOkKeepsSound(s, t);
    case SendFail(t) => SendFailKeepsSound(s, t);
    case Push(t) => PushKeepsSound(s, t);
    case Empty(t) => EmptyKeepsSound(s, t);
    case WSendOk => TakingKeepsSound(s, QueuedTx(s.worker.l, s.queues[s.worker.l][0]));
    case WDrop => TakingKeepsSound(s, DropEmpty(s.worker.l, s.queues[s.worker.l][0]));
    case SendAgain(t) => ThreadKeepsSound(s, l, t);
    case RaiseFlag(t) => ThreadKeepsSound(s, l, t);
    case Unlock(t) => ThreadKeepsSound(s, l, t);
    case BeginDestroy(t, _) => ThreadKeepsSound(s, l, t);
    case Unregister(t) => ThreadKeepsSound(s, l, t);
    case _ => WorkerKeepsSound(s, l);
  }

  lemma {:induction false} RunKeepsSound(s: State, ls: seq<Label>)
    requires Sound(s) && Legal(s, ls)
    ensures Sound(Run(s, ls))
    decreases |ls|
  {
    hide Sound, Enabled, Step;
    if ls != [] {
      StepKeepsSound(s, ls[0]);
      RunKeepsSound(Step(s, ls[0]), ls[1..]);
    }
  }

  // ---- What became of one datagram ----

  predicate QueuedAt(s: State, l: Link, i: nat, id: nat) {
    l in s.queues && i < |s.queues[l]| && s.queues[l][i].id == id
  }

  predicate LoggedAt(s: State, i: nat, id: nat) {
    i < |s.log| && s.log[i].d.id == id
  }

  ghost predicate SomewhereQueued(s: State, id: nat) {
    exists l, i: nat :: QueuedAt(s, l, i, id)
  }

  ghost predicate SomewhereLogged(s: State, id: nat) {
    exists i: nat :: LoggedAt(s, i, id)
  }

  lemma QueuedMeans(s: State, l: Link, i: nat, id: nat)
    requires Sound(s) && QueuedAt(s, l, i, id)
    ensures id in s.places && s.places[id] == Queued(l, Gone(s, l) + i)
    ensures id < |s.asked| && s.asked[id] == Request(l, s.queues[l][i])
  {
    assert InPlace(s, l, Gone(s, l) + i);
  }

  lemma LoggedMeans(s: State, i: nat, id: nat)
    requires Sound(s) && LoggedAt(s, i, id)
    ensures id in s.places && s.places[id] == Done(i)
    ensures id < |s.asked| && s.asked[id] == Request(s.log[i].l, s.log[i].d)
    ensures s.log[i].QueuedTx? ==> s.log[i].d.data != []
    ensures s.log[i].DropEmpty? ==> s.log[i].d.data == []
  {
    assert At(s, s.log[i].l, s.log[i].d, Done(i));
  }

  /** Every run, every interleaving: a datagram is queued at most once or logged at most once, never both,
      always as it was handed in and on the link it was handed to; accepted ones are somewhere, refused
      ones nowhere, and the others are still with their sender. Only an empty one is dropped unsent. */
  lemma DatagramsAreConserved(ls: seq<Label>, id: nat)
    requires Legal(INIT, ls)
    ensures var s := Run(INIT, ls);
      && (forall l, i: nat :: QueuedAt(s, l, i, id) ==> id < |s.asked| && s.asked[id] == Request(l, s.queues[l][i]))
      && (forall i: nat :: LoggedAt(s, i, id) ==>
           && id < |s.asked| && s.asked[id] == Request(s.log[i].l, s.log[i].d)
           && (s.log[i].DropEmpty? ==> s.log[i].d.data == []))
      && (forall l, i: nat, k, j: nat :: QueuedAt(s, l, i, id) && QueuedAt(s, k, j, id) ==> l == k && i == j)
      && (forall i: nat, j: nat :: LoggedAt(s, i, id) && LoggedAt(s, j, id) ==> i == j)
      && !(SomewhereQueued(s, id) && SomewhereLogged(s, id))
      && (id in s.told ==> (s.told[id] <==> SomewhereQueued(s, id) || SomewhereLogged(s, id)))
      && (id < |s.asked| && id !in s.told && !SomewhereQueued(s, id) && !SomewhereLogged(s, id) ==>
           exists t :: t in s.threads && Carries(s.threads[t]) && s.threads[t].d == s.asked[id].d)
  {
    assert Sound(INIT);
    RunKeepsSound(INIT, ls);
    var s := Run(INIT, ls);
    forall l, i: nat | QueuedAt(s, l, i, id)
      ensures id in s.places && s.places[id] == Queued(l, Gone(s, l) + i)
      ensures s.asked[id] == Request(l, s.queues[l][i])
    {
      QueuedMeans(s, l, i, id);
    }
    forall i: nat | LoggedAt(s, i, id)
      ensures id in s.places && s.places[id] == Done(i) && s.asked[id] == Request(s.log[i].l, s.log[i].d)
    {
      LoggedMeans(s, i, id);
    }
    if id in s.places {
      WhereItIs(s, id);
    }
  }

  lemma WhereItIs(s: State, id: nat)
    requires Sound(s) && id in s.places
    ensures s.places[id].Queued? ==> SomewhereQueued(s, id)
    ensures s.places[id].Done? ==> SomewhereLogged(s, id)
    ensures s.places[id].Flying? ==>
      s.places[id].t in s.threads && Carries(s.threads[s.places[id].t]) && s.threads[s.places[id].t].d == s.asked[id].d
    ensures s.places[id].Refused? <==> id in s.told && !s.told[id]
  {
    var p := s.places[id];
    assert Found(s, id, p);
    match p
    case Queued(l, n) =>
      assert InPlace(s, l, n);
      assert QueuedAt(s, l, n - Gone(s, l), id);
    case Done(i) => assert LoggedAt(s, i, id);
    case Flying(t) => assert At(s, s.threads[t].l, s.threads[t].d, Flying(t));
    case Refused =>
  }

  // ---- Order ----

  /** The datagrams that left a link's queue, in the order they left it. */
  function Departed(log: seq<Event>, l: Link): seq<Datagram> {
    if log == [] then [] else
    var e := log[|log| - 1];
    Departed(log[..|log| - 1], l) + if e.l == l && !e.DirectTx? then [e.d] else []
  }

  ghost predicate InOrder(s: State) {
    && s.queues.Keys == s.pushed.Keys
    && (forall l :: l in s.queues ==> l <= s.links && PushedOn(s, l) == Departed(s.log, l) + s.queues[l])
    && (forall e :: e in s.log && !e.DirectTx? ==> e.l in s.queues)
  }

  lemma DepartedOne(log: seq<Event>, e: Event, l: Link)
    ensures Departed(log + [e], l) == Departed(log, l) + if e.l == l && !e.DirectTx? then [e.d] else []
  {
    assert (log + [e])[..|log|] == log;
  }

  lemma {:induction false} DepartedDiscards(log: seq<Event>, k: Link, q: seq<Datagram>, l: Link)
    ensures Departed(log + Discards(k, q), l) == Departed(log, l) + if k == l then q else []
    decreases |q|
  {
    if q == [] {
      assert log + Discards(k, q) == log;
    } else {
      var front, d := q[..|q| - 1], q[|q| - 1];
      assert log + Discards(k, q) == (log + Discards(k, front)) + [Discard(k, d)];
      DepartedDiscards(log, k, front, l);
      DepartedOne(log + Discards(k, front), Discard(k, d), l);
      assert front + [d] == q;
    }
  }

  lemma {:induction false} NothingDeparted(log: seq<Event>, l: Link)
    requires forall e :: e in log && !e.DirectTx? ==> e.l != l
    ensures Departed(log, l) == []
    decreases |log|
  {
    if log != [] {
      var front := log[..|log| - 1];
      assert forall e :: e in front ==> e in log;
      NothingDeparted(front, l);
      assert log[|log| - 1] in log;
    }
  }

  lemma SendOkKeepsOrder(s: State, t: Thread)
    requires InOrder(s) && Enabled(s, SendOk(t))
    ensures InOrder(Step(s, SendOk(t)))
  {
    hide QueueFree, Departed;
    var s' := Step(s, SendOk(t));
    forall k | k in s'.queues ensures PushedOn(s', k) == Departed(s'.log, k) + s'.queues[k] {
      DepartedOne(s.log, DirectTx(s.threads[t].l, s.threads[t].d), k);
    }
  }

  lemma EmptyKeepsOrder(s: State, t: Thread)
    requires InOrder(s) && Enabled(s, Empty(t))
    ensures InOrder(Step(s, Empty(t)))
  {
    hide QueueFree, Departed;
    var s' := Step(s, Empty(t));
    forall k | k in s'.queues ensures PushedOn(s', k) == Departed(s'.log, k) + s'.queues[k] {
      DepartedDiscards(s.log, s.threads[t].l, s.queues[s.threads[t].l], k);
    }
  }

  lemma StepKeepsOrder(s: State, l: Label)
    requires InOrder(s) && Enabled(s, l)
    ensures InOrder(Step(s, l))
  {
    hide QueueFree, Departed, InOrder;
    match l
    case SendOk(t) => SendOkKeepsOrder(s, t);
    case Empty(t) => EmptyKeepsOrder(s, t);
    case WSendOk => TakingKeepsOrder(s, QueuedTx(s.worker.l, s.queues[s.worker.l][0]));
    case WDrop => TakingKeepsOrder(s, DropEmpty(s.worker.l, s.queues[s.worker.l][0]));
    case Create => CreateKeepsOrder(s);
    case Push(t) => PushKeepsOrder(s, t);
    case _ => SameOrder(s, Step(s, l));
  }

  lemma CreateKeepsOrder(s: State)
    requires InOrder(s) && Enabled(s, Create)
    ensures InOrder(Step(s, Create))
  {
    hide Departed;
    NothingDeparted(s.log, s.links + 1);
  }

  lemma SameOrder(s: State, s': State)
    requires InOrder(s) && s'.queues == s.queues && s'.pushed == s.pushed && s'.log == s.log && s'.links == s.links
    ensures InOrder(s')
  {
  }

  lemma PushKeepsOrder(s: State, t: Thread)
    requires InOrder(s) && Enabled(s, Push(t))
    ensures InOrder(Step(s, Push(t)))
  {
    hide QueueFree, Departed;
  }

  lemma TakingKeepsOrder(s: State, e: Event)
    requires InOrder(s) && HasHead(s, e.l) && e.d == s.queues[e.l][0] && !e.DirectTx?
    ensures InOrder(TakeHead(s, e.l, e))
  {
    hide Departed;
    var s' := TakeHead(s, e.l, e);
    forall k | k in s'.queues ensures PushedOn(s', k) == Departed(s'.log, k) + s'.queues[k] {
      DepartedOne(s.log, e, k);
    }
  }

  /** Every run: what was queued on a link has left it in the order it was queued, or is queued still in
      that order; only a send that succeeded, an empty buffer or the link's destruction took it out. */
  lemma {:induction false} QueuesAreFifo(s: State, ls: seq<Label>)
    requires InOrder(s) && Legal(s, ls)
    ensures InOrder(Run(s, ls))
    decreases |ls|
  {
    hide InOrder, Step, Enabled;
    if ls != [] {
      StepKeepsOrder(s, ls[0]);
      QueuesAreFifo(Step(s, ls[0]), ls[1..]);
    }
  }

  // ---- Why a buffer was freed ----

  /** A datagram is logged as sent by the step that sent it, as dropped only when it is empty, and as discarded
      only by the destruction of its link. */
  predicate Because(s: State, l: Label, e: Event) {
    match e
    case DirectTx(k, d) => l.SendOk? && l.t in s.threads && s.threads[l.t] == Sending(k, d)
    case QueuedTx(k, d) => l.WSendOk? && s.worker.Draining? && s.worker.l == k && HasHead(s, k) && s.queues[k][0] == d
                           && d.data != []
    case DropEmpty(k, d) => l.WDrop? && s.worker.Draining? && s.worker.l == k && HasHead(s, k) && s.queues[k][0] == d
                            && d.data == []
    case Discard(k, d) => l.Empty? && l.t in s.threads && s.threads[l.t] == Destroying(k) && k in s.queues
                          && d in s.queues[k]
  }

  lemma StepLogsWhy(s: State, l: Label)
    requires Enabled(s, l)
    ensures s.log <= Step(s, l).log
    ensures forall i :: |s.log| <= i < |Step(s, l).log| ==> Because(s, l, Step(s, l).log[i])
    ensures (l.SendOk? || l.WSendOk? || l.WDrop?) ==> |Step(s, l).log| == |s.log| + 1
  {
    hide QueueFree;
  }

  /** In every run of which no label begins to destroy link k, nothing queued on k is discarded. */
  lemma {:induction false} OnlyDestructionDiscards(s: State, ls: seq<Label>, k: Link)
    requires Legal(s, ls)
    requires forall l :: l in ls && l.BeginDestroy? ==> l.l != k
    requires forall t :: t in s.threads && s.threads[t].Destroying? ==> s.threads[t].l != k
    ensures forall i :: |s.log| <= i < |Run(s, ls).log| && Run(s, ls).log[i].Discard? ==> Run(s, ls).log[i].l != k
    ensures s.log <= Run(s, ls).log
    decreases |ls|
  {
    if ls != [] {
      var s1 := Step(s, ls[0]);
      assert ls[0] in ls;
      StepLogsWhy(s, ls[0]);
      NobodyBegins(s, ls[0], k);
      hide Step, Enabled;
      OnlyDestructionDiscards(s1, ls[1..], k);
      var end := Run(s, ls).log;
      forall i | |s.log| <= i < |end| && end[i].Discard? ensures end[i].l != k {
        if i < |s1.log| {
          assert end[i] == s1.log[i] && Because(s, ls[0], s1.log[i]);
        }
      }
    }
  }

  lemma NobodyBegins(s: State, l: Label, k: Link)
    requires Enabled(s, l) && (l.BeginDestroy? ==> l.l != k)
    requires forall t :: t in s.threads && s.threads[t].Destroying? ==> s.threads[t].l != k
    ensures var s' := Step(s, l); forall t :: t in s'.threads && s'.threads[t].Destroying? ==> s'.threads[t].l != k
  {
    hide QueueFree;
  }
}
