/** The UDP links as the code has them: link objects with their queues, a registry of them and the send
    flag. Every method is proved to be a run of the transition system, with its direct effect beside it. */
module UdpLinks {
  import opened Bytes
  import opened UdpSending

  class MsUdpLink {
    const handle: Link
    var socket: int
    var sendBuffList: seq<Datagram>
    var closedEvents: nat   // how often CLOSED was sent

    constructor (h: Link, fd: nat)
      ensures handle == h && socket == fd && sendBuffList == [] && closedEvents == 0
    {
      handle, socket, sendBuffList, closedEvents := h, fd, [], 0;
    }

    /** A link has its socket, or has sent CLOSED, once. */
    ghost predicate Open()
      reads `socket, `closedEvents
    {
      if socket == -1 then closedEvents == 1 else socket >= 0 && closedEvents == 0
    }

    /** The inner loop of do_send_buff, under the link's lock: sendto succeeds k times, then fails. */
    method Drain(k: nat)
      modifies `sendBuffList
      ensures sendBuffList == Drained(old(sendBuffList), k)
    {
      var sent := 0;
      while sendBuffList != []
        invariant sent <= k && Drained(sendBuffList, k - sent) == Drained(old(sendBuffList), k)
        decreases |sendBuffList|
      {
        if sendBuffList[0].data == [] {
          sendBuffList := sendBuffList[1..];
        } else if sent == k {
          break;
        } else {
          sendBuffList := sendBuffList[1..];
          sent := sent + 1;
        }
      }
    }
  }

  /** The address argument: NULL, or an IP address. */
  datatype Address = Null | Address(ip: nat)

  const BROADCAST: nat := 0xffff_ffff

  /** dst_addr: the port in every case, with the broadcast address or the one given. */
  function DstAddr(broadcast: bool, to: Address, port: nat): Destination
    requires broadcast || to.Address?
  {
    Destination(if broadcast then BROADCAST else to.ip, port)
  }

  /** What sendto answers: done, try again, or an error. */
  datatype Outcome = Sent | Again | Error

  /** What a pass leaves of a queue when sendto succeeds k times and then fails. */
  function Drained(q: seq<Datagram>, k: nat): (left: seq<Datagram>)
    decreases |q|
  {
    if q == [] then []
    else if q[0].data == [] then Drained(q[1..], k)
    else if k == 0 then q
    else Drained(q[1..], k - 1)
  }

  function Loaded(q: seq<Datagram>): nat {
    if q == [] then 0 else (if q[0].data == [] then 0 else 1) + Loaded(q[1..])
  }

  /** A pass takes a prefix off the queue: at most k datagrams that have data go out, and if the queue does
      not empty, exactly k went out and the next has data. */
  lemma {:induction false} DrainedIsTail(q: seq<Datagram>, k: nat) returns (n: nat)
    ensures n <= |q| && Drained(q, k) == q[n..] && Loaded(q[..n]) <= k
    ensures n < |q| ==> Loaded(q[..n]) == k && q[n].data != []
    decreases |q|
  {
    if q == [] || (q[0].data != [] && k == 0) {
      n := 0;
    } else {
      var m := DrainedIsTail(q[1..], if q[0].data == [] then k else k - 1);
      n := m + 1;
      assert q[..n][1..] == q[1..][..m] && q[n..] == q[1..][m..];
    }
  }

  predicate Idle(s: State) {
    s.worker == Resting && s.threads == map[]
  }

  /** link_send_to run from start to end while nothing else runs. */
  lemma SendingAlone(s: State, k: Link, data: seq<byte>, dst: Destination, outcome: Outcome) returns (steps: seq<Label>)
    requires Idle(s) && k in s.registered && HasQueue(s, k)
    ensures Legal(s, steps) && Idle(Run(s, steps))
    ensures var s', d := Run(s, steps), Datagram(|s.asked|, data, dst);
      && s'.registered == s.registered && s'.links == s.links && s'.asked == s.asked + [Request(k, d)]
      && s'.told == s.told[d.id := !outcome.Error?]
      && s'.flag == (s.flag || outcome.Again?)
      && s'.queues == (if outcome.Again? then s.queues[k := s.queues[k] + [d]] else s.queues)
      && s'.pushed == (if outcome.Again? then s.pushed[k := PushedOn(s, k) + [d]] else s.pushed)
  {
    var begin := BeginSend(0, k, data, dst);
    RunExtends(s, [], begin);
    assert [] + [begin] == [begin];
    var s1 := Step(s, begin);
    match outcome
    case Sent =>
      RunExtends(s, [begin], SendOk(0));
      steps := [begin] + [SendOk(0)];
    case Error =>
      RunExtends(s, [begin], SendFail(0));
      steps := [begin] + [SendFail(0)];
    case Again =>
      var s2 := Step(s1, SendAgain(0));
      RunExtends(s, [begin], SendAgain(0));
      steps := [begin] + [SendAgain(0)];
      RunExtends(s, steps, Push(0));
      steps := steps + [Push(0)];
      RunExtends(s, steps, RaiseFlag(0));
      steps := steps + [RaiseFlag(0)];
      RunExtends(s, steps, Unlock(0));
      steps := steps + [Unlock(0)];
  }

  /** The worker's visit of a link run from start to end while nothing else runs. */
  lemma VisitingAlone(s: State, l: Link, k: nat) returns (steps: seq<Label>)
    requires s.worker.Passing? && l in s.worker.todo && s.threads == map[] && HasQueue(s, l)
    ensures Legal(s, steps)
    ensures var s', left := Run(s, steps), Drained(s.queues[l], k);
      s' == s.(worker := Passing(s.worker.todo - {l}), flag := s.flag || left != [], queues := s.queues[l := left],
               log := s'.log, places := s'.places)
  {
    assert QueueFree(s, l);
    hide Run, Legal, Drained, QueueFree;
    RunOne(s, WEnter(l));
    var s1 := Step(s, WEnter(l));
    var draining := DrainingAlone(s1, k);
    RunConcat(s, [WEnter(l)], draining);
    steps := [WEnter(l)] + draining;
    var n := DrainedIsTail(s.queues[l], k);
    RunExtends(s, steps, WStop);
    steps := steps + [WStop];
    RunExtends(s, steps, WLeave);
    steps := steps + [WLeave];
  }

  /** One turn of the inner loop. */
  lemma TakingAlone(s: State, first: Label)
    requires s.worker.Draining? && HasHead(s, s.worker.l)
    requires first == if s.queues[s.worker.l][0].data == [] then WDrop else WSendOk
    ensures Enabled(s, first)
    ensures var s' := Step(s, first);
      s' == s.(queues := s.queues[s.worker.l := s.queues[s.worker.l][1..]], log := s'.log, places := s'.places)
  {
  }

  lemma {:induction false} DrainingAlone(s: State, k: nat) returns (steps: seq<Label>)
    requires s.worker.Draining? && HasQueue(s, s.worker.l)
    ensures Legal(s, steps)
    ensures var s' := Run(s, steps);
      s' == s.(queues := s.queues[s.worker.l := Drained(s.queues[s.worker.l], k)], log := s'.log, places := s'.places)
    decreases |s.queues[s.worker.l]|
  {
    var q := s.queues[s.worker.l];
    if q == [] || (q[0].data != [] && k == 0) {
      steps := [];
    } else {
      var first := if q[0].data == [] then WDrop else WSendOk;
      TakingAlone(s, first);
      hide Step, Enabled;
      var s1 := Step(s, first);
      var rest := DrainingAlone(s1, if first.WDrop? then k else k - 1);
      steps := [first] + rest;
      assert steps[1..] == rest;
    }
  }

  /** link_destroy run from start to end while nothing else runs. */
  lemma DestroyingAlone(s: State, k: Link) returns (steps: seq<Label>)
    requires Idle(s) && HasQueue(s, k)
    ensures Legal(s, steps)
    ensures var s' := Run(s, steps);
      s' == s.(registered := s.registered - {k}, queues := s.queues[k := []],
               log := s.log + Discards(k, s.queues[k]), places := s'.places)
  {
    var s1 := Step(s, BeginDestroy(0, k));
    var s2 := Step(s1, Empty(0));
    RunOne(s, BeginDestroy(0, k));
    RunExtends(s, [BeginDestroy(0, k)], Empty(0));
    steps := [BeginDestroy(0, k)] + [Empty(0)];
    RunExtends(s, steps, Unregister(0));
    steps := steps + [Unregister(0)];
    assert Run(s, steps).threads == s.threads;
  }

  lemma BeginningAlone(s: State)
    requires s.worker == Resting && s.flag
    ensures Legal(s, [WSee, WClear, WLock])
    ensures Run(s, [WSee, WClear, WLock]) == s.(flag := false, worker := Passing(s.registered))
  {
    RunOne(s, WSee);
    RunExtends(s, [WSee], WClear);
    RunExtends(s, [WSee] + [WClear], WLock);
    assert [WSee] + [WClear] + [WLock] == [WSee, WClear, WLock];
  }

  /** The worker is done with link l, whose socket took k sends. */
  predicate Visited(s: State, s': State, l: Link, k: nat)
    requires s.worker.Passing? && HasQueue(s, l)
  {
    var left := Drained(s.queues[l], k);
    s' == s.(worker := Passing(s.worker.todo - {l}), flag := s.flag || left != [], queues := s.queues[l := left],
             log := s'.log, places := s'.places)
  }

  /** A whole pass: every registered queue is drained as far as its own socket allows, whatever the other
      sockets did, the others are untouched, and the flag says whether anything is left. */
  ghost predicate PassDone(s: State, s': State, accepts: Link -> nat) {
    && s'.registered == s.registered && s'.queues.Keys == s.queues.Keys
    && (forall l :: l in s.queues ==>
          s'.queues[l] == if l in s.registered then Drained(s.queues[l], accepts(l)) else s.queues[l])
    && (s'.flag <==> exists l :: l in s'.registered && l in s'.queues && s'.queues[l] != [])
  }

  /** Halfway through a pass over queues that were q: done with the handles below l. */
  ghost predicate HalfPass(s: State, q: map<Link, seq<Datagram>>, l: Link, accepts: Link -> nat) {
    && s.registered <= q.Keys && s.queues.Keys == s.pushed.Keys == q.Keys
    && s.worker == Passing(set j | j in s.registered && j >= l)
    && (forall j :: j in q ==> s.queues[j] == if j in s.registered && j < l then Drained(q[j], accepts(j)) else q[j])
    && (s.flag <==> exists j :: j in s.registered && j < l && s.queues[j] != [])
  }

  lemma HalfPassGoesOn(s: State, s': State, q: map<Link, seq<Datagram>>, l: Link, accepts: Link -> nat)
    requires HalfPass(s, q, l, accepts) && if l in s.registered then Visited(s, s', l, accepts(l)) else s' == s
    ensures HalfPass(s', q, l + 1, accepts)
  {
    hide Drained;
    assert (set j | j in s.registered && j >= l) - {l} == set j | j in s.registered && j >= l + 1;
    if s.flag {
      var j :| j in s.registered && j < l && s.queues[j] != [];
      assert s'.queues[j] != [];
    } else if s'.flag {
      assert s'.queues[l] != [];
    }
  }

  lemma HalfPassHas(s: State, q: map<Link, seq<Datagram>>, l: Link, accepts: Link -> nat)
    requires HalfPass(s, q, l, accepts) && l in s.registered
    ensures s.worker.Passing? && l in s.worker.todo && HasQueue(s, l)
  {
  }

  lemma VisitedKeeps(s: State, s': State, l: Link, k: nat)
    requires s.worker.Passing? && HasQueue(s, l) && Visited(s, s', l, k)
    ensures s'.registered == s.registered && s'.links == s.links
  {
  }

  lemma HalfPassEnds(s: State, s': State, accepts: Link -> nat)
    requires s.registered <= s.queues.Keys && s'.registered == s.registered
    requires forall l :: l in s.registered ==> l <= s.links
    requires HalfPass(s', s.queues, s.links + 1, accepts)
    ensures Enabled(s', WEnd) && Step(s', WEnd) == s'.(worker := Resting) && PassDone(s, Step(s', WEnd), accepts)
  {
    hide Drained;
    assert (set j | j in s'.registered && j >= s.links + 1) == {};
    if s'.flag {
      var j :| j in s'.registered && j < s.links + 1 && s'.queues[j] != [];
      assert j in s'.registered && j in s'.queues && s'.queues[j] != [];
    }
  }

  /** The registry's fields and queues are those of the state. */
  ghost predicate Agree(s: State, flag: bool, registered: set<Link>, count: nat, buffers: nat,
                        lists: map<Link, seq<Datagram>>)
  {
    && s.threads == map[] && flag == s.flag && registered == s.registered && count == s.links
    && buffers == |s.asked| && lists == s.queues && s.queues.Keys == s.pushed.Keys
  }

  class Registry {
    var sendFlag: bool
    var mapLink: map<Link, MsUdpLink>
    var count: nat
    var buffers: nat                      // stands for the address of the next buffer allocated
    ghost var all: map<Link, MsUdpLink>   // every link ever created
    ghost var repr: set<MsUdpLink>
    ghost var history: State

    /** Every link has its own handle, and the registered ones are among them. */
    ghost predicate Linked()
      reads `all, `mapLink, `count, `repr
    {
      && (forall l :: l in mapLink ==> l in all && mapLink[l] == all[l])
      && (forall l :: l in all ==> all[l] in repr && 1 <= l <= count && all[l].handle == l)
    }

    /** The queues of all links ever created. */
    ghost function Lists(): map<Link, seq<Datagram>>
      requires Linked()
      reads `all, `mapLink, `count, `repr, repr`sendBuffList
    {
      map l | l in all :: all[l].sendBuffList
    }

    /** The fields say what the history says. */
    ghost predicate Matches()
      reads this, repr`sendBuffList
    {
      Linked() && Agree(history, sendFlag, mapLink.Keys, count, buffers, Lists())
    }

    /** Registered links have their socket; the others have sent CLOSED, once. */
    ghost predicate Sockets()
      reads `all, `mapLink, `repr, repr`socket, repr`closedEvents
    {
      forall l :: l in all ==>
        && all[l] in repr && all[l].handle == l
        && all[l].Open()
        && (l in mapLink <==> all[l].socket != -1)
    }

    ghost predicate Valid()
      reads this, repr
    {
      Matches() && Sockets() && history.worker == Resting
    }

    constructor ()
      ensures Valid() && history == INIT && !sendFlag && mapLink == map[]
    {
      sendFlag, mapLink, count, buffers, all, repr, history := false, map[], 0, 0, map[], {}, INIT;
    }

    method AddTcpLink(fd: nat) returns (link: MsUdpLink, ghost steps: seq<Label>)
      requires Valid()
      modifies this
      ensures Valid() && fresh(link) && link.handle == old(count) + 1 && link.handle !in old(all) && link.socket == fd
      ensures mapLink == old(mapLink)[link.handle := link] && all == old(all)[link.handle := link]
      ensures sendFlag == old(sendFlag)
      ensures steps == [Create] && Legal(old(history), steps) && history == Run(old(history), steps)
    {
      assert old(count) + 1 !in all;
      RunOne(history, Create);
      hide Run, Legal, Matches;
      steps := [Create];
      link := new MsUdpLink(count + 1, fd);
      Register(link);
    }

    method Register(link: MsUdpLink)
      requires Matches() && history.worker == Resting
      requires link !in repr && link.handle == count + 1 && link.sendBuffList == []
      modifies `count, `mapLink, `all, `repr, `history
      ensures Matches() && repr == old(repr) + {link}
      ensures mapLink == old(mapLink)[link.handle := link] && all == old(all)[link.handle := link]
      ensures Enabled(old(history), Create) && history == Step(old(history), Create)
    {
      hide Linked, Lists;
      Enter(link);
      history := Step(history, Create);
    }

    /** add_tcp_link's two maps and the counter. */
    method Enter(link: MsUdpLink)
      requires Linked() && link !in repr && link.handle == count + 1 && link.sendBuffList == []
      modifies `count, `mapLink, `all, `repr
      ensures Linked() && Lists() == old(Lists())[link.handle := []]
      ensures count == old(count) + 1 && repr == old(repr) + {link}
      ensures mapLink == old(mapLink)[link.handle := link] && all == old(all)[link.handle := link]
    {
      count := count + 1;
      mapLink := mapLink[count := link];
      all, repr := all[count := link], repr + {link};
    }

    /** link_send_to once the link is found, with sendto's answer. Without an address, and not broadcasting, it
        refuses before it tries. */
    method LinkSendTo(link: MsUdpLink, data: seq<byte>, broadcast: bool, to: Address, port: nat, outcome: Outcome)
      returns (ok: bool, ghost steps: seq<Label>)
      requires Valid() && link.handle in mapLink && mapLink[link.handle] == link
      modifies this, link`sendBuffList
      ensures Valid() && mapLink == old(mapLink) && all == old(all)
      ensures Legal(old(history), steps) && history == Run(old(history), steps)
      ensures if !broadcast && to.Null? then
                && !ok && history == old(history)
                && link.sendBuffList == old(link.sendBuffList) && sendFlag == old(sendFlag)
              else
                && ok == !outcome.Error?
                && sendFlag == (old(sendFlag) || outcome.Again?)
                && link.sendBuffList == old(link.sendBuffList)
                   + (if outcome.Again? then [Datagram(old(buffers), data, DstAddr(broadcast, to, port))] else [])
                && (outcome.Again? ==>
                      var d := link.sendBuffList[|link.sendBuffList| - 1];
                      && d.data == data && d.dst.port == port
                      && d.dst.address == (if broadcast then 0xffff_ffff else to.ip))
                && history.told == old(history.told)[old(buffers) := ok]
    {
      if !broadcast && to.Null? {
        return false, [];
      }
      hide Matches, Sockets, Run, Legal;
      ok, steps := SendTo(link, data, DstAddr(broadcast, to, port), outcome);
    }

    method SendTo(link: MsUdpLink, data: seq<byte>, dst: Destination, outcome: Outcome)
        returns (ok: bool, ghost steps: seq<Label>)
      requires Matches() && history.worker == Resting && link.handle in mapLink && mapLink[link.handle] == link
      modifies `history, `sendFlag, `buffers, link`sendBuffList
      ensures Matches() && history.worker == Resting
      ensures ok == !outcome.Error?
      ensures sendFlag == (old(sendFlag) || outcome.Again?)
      ensures link.sendBuffList
           == old(link.sendBuffList) + if outcome.Again? then [Datagram(old(buffers), data, dst)] else []
      ensures Legal(old(history), steps) && history == Run(old(history), steps)
      ensures history.told == old(history.told)[old(buffers) := ok]
    {
      steps := SendingAlone(history, link.handle, data, dst, outcome);
      assert Lists()[link.handle] == link.sendBuffList;
      hide Run, Legal, Linked, Lists;
      history := Run(history, steps);
      Sent(link, Datagram(buffers, data, dst), outcome);
      ok := !outcome.Error?;
    }

    /** What link_send_to leaves behind. */
    method Sent(link: MsUdpLink, d: Datagram, outcome: Outcome)
      requires Linked() && link.handle in all && all[link.handle] == link
      modifies `sendFlag, `buffers, link`sendBuffList
      ensures Linked() && buffers == old(buffers) + 1 && sendFlag == (old(sendFlag) || outcome.Again?)
      ensures link.sendBuffList == old(link.sendBuffList) + if outcome.Again? then [d] else []
      ensures Lists() == if outcome.Again? then old(Lists())[link.handle := link.sendBuffList] else old(Lists())
    {
      if outcome.Again? {
        link.sendBuffList := link.sendBuffList + [d];
        sendFlag := true;
      }
      buffers := buffers + 1;
    }

    /** link_destroy: the queued buffers are discarded, the link leaves the registry, and its socket is shut down
        with one CLOSED event, however often the link is destroyed. */
    method LinkDestroy(link: MsUdpLink) returns (ghost steps: seq<Label>)
      requires Valid() && link.handle in all && all[link.handle] == link
      modifies this, link
      ensures Valid() && all == old(all) && sendFlag == old(sendFlag)
      ensures link.sendBuffList == [] && mapLink == old(mapLink) - {link.handle}
      ensures link.socket == -1 && link.closedEvents == 1
      ensures history.log == old(history.log) + Discards(link.handle, old(link.sendBuffList))
      ensures Legal(old(history), steps) && history == Run(old(history), steps)
    {
      hide Run, Legal, Discards, Matches;
      steps := Unregister(link);
      if link.socket != -1 {
        link.socket := -1;
        link.closedEvents := link.closedEvents + 1;
      }
    }

    /** del_send_buff and del_link. */
    method Unregister(link: MsUdpLink) returns (ghost steps: seq<Label>)
      requires Matches() && history.worker == Resting && link.handle in all && all[link.handle] == link
      modifies `history, `mapLink, link`sendBuffList
      ensures Matches() && history.worker == Resting
      ensures link.sendBuffList == [] && mapLink == old(mapLink) - {link.handle}
      ensures history.log == old(history.log) + Discards(link.handle, old(link.sendBuffList))
      ensures Legal(old(history), steps) && history == Run(old(history), steps)
    {
      steps := DestroyingAlone(history, link.handle);
      assert Lists()[link.handle] == link.sendBuffList;
      hide Run, Legal, Discards, Linked, Lists;
      history := Run(history, steps);
      Cut(link);
    }

    /** The queue emptied and the link out of the map. */
    method Cut(link: MsUdpLink)
      requires Linked() && link.handle in all && all[link.handle] == link
      modifies `mapLink, link`sendBuffList
      ensures Linked() && Lists() == old(Lists())[link.handle := []]
      ensures link.sendBuffList == [] && mapLink == old(mapLink) - {link.handle}
    {
      link.sendBuffList := [];
      mapLink := mapLink - {link.handle};
    }

    /** A link's inner loop and the flag it leaves. */
    method DrainLink(link: MsUdpLink, k: nat)
      requires Linked() && link.handle in all && all[link.handle] == link
      modifies `sendFlag, link`sendBuffList
      ensures Linked() && Lists() == old(Lists())[link.handle := link.sendBuffList]
      ensures link.sendBuffList == Drained(old(link.sendBuffList), k)
      ensures sendFlag == (old(sendFlag) || link.sendBuffList != [])
    {
      link.Drain(k);
      if link.sendBuffList != [] {
        sendFlag := true;
      }
    }

    /** The loop body of do_send_buff. */
    method Visit(l: Link, k: nat, ghost start: State, ghost before: seq<Label>) returns (ghost steps: seq<Label>)
      requires Matches() && l in mapLink
      requires history.worker.Passing? && l in history.worker.todo
      requires Legal(start, before) && history == Run(start, before)
      modifies `history, `sendFlag, repr`sendBuffList
      ensures Matches() && Visited(old(history), history, l, k)
      ensures Legal(start, steps) && history == Run(start, steps)
    {
      var link := mapLink[l];
      assert Lists()[l] == link.sendBuffList;
      hide Run, Legal, Drained, QueueFree, Linked, Lists;
      ghost var visit := VisitingAlone(history, l, k);
      RunConcat(start, before, visit);
      DrainLink(link, k);
      history := Run(history, visit);
      steps := before + visit;
    }

    /** Clearing the flag and taking the registry lock. */
    method BeginPass(accepts: Link -> nat) returns (ghost steps: seq<Label>)
      requires Matches() && history.worker == Resting && sendFlag
      modifies `history, `sendFlag
      ensures Matches() && HalfPass(history, old(history.queues), 1, accepts)
      ensures Legal(old(history), steps) && history == Run(old(history), steps)
      ensures history.registered == old(history.registered) && history.links == old(history.links)
    {
      steps := [WSee, WClear, WLock];
      BeginningAlone(history);
      hide Run, Legal, Drained;
      sendFlag := false;
      history := Run(history, steps);
      assert (set j: Link | j in history.registered && j >= 1) == history.registered;
    }

    /** The loop over the registry, in handle order. */
    method VisitAll(accepts: Link -> nat, ghost q: map<Link, seq<Datagram>>, ghost start: State,
                    ghost before: seq<Label>)
      returns (ghost steps: seq<Label>)
      requires Matches() && HalfPass(history, q, 1, accepts)
      requires Legal(start, before) && history == Run(start, before)
      modifies `history, `sendFlag, repr`sendBuffList
      ensures Matches() && HalfPass(history, q, history.links + 1, accepts)
      ensures Legal(start, steps) && history == Run(start, steps)
      ensures history.registered == old(history.registered) && history.links == old(history.links)
    {
      hide Run, Legal, Drained, HalfPass, Visited;
      steps := before;
      for l := 1 to count + 1
        invariant Matches() && history.links == old(history.links) && history.registered == old(history.registered)
        invariant HalfPass(history, q, l, accepts)
        invariant Legal(start, steps) && history == Run(start, steps)
      {
        ghost var s := history;
        if l in mapLink {
          HalfPassHas(history, q, l, accepts);
          steps := Visit(l, accepts(l), start, steps);
          VisitedKeeps(s, history, l, accepts(l));
        }
        HalfPassGoesOn(s, history, q, l, accepts);
      }
    }

    /** Letting the registry lock go. */
    ghost method EndPass(accepts: Link -> nat, start: State, before: seq<Label>) returns (steps: seq<Label>)
      requires Matches() && HalfPass(history, start.queues, history.links + 1, accepts)
      requires history.registered == start.registered && history.links == start.links
      requires start.registered <= start.queues.Keys
      requires Legal(start, before) && history == Run(start, before)
      modifies `history
      ensures Matches() && history.worker == Resting && PassDone(start, history, accepts)
      ensures Legal(start, steps) && history == Run(start, steps)
    {
      hide Run, Legal, Drained, HalfPass, PassDone, Step, Enabled;
      HalfPassEnds(start, history, accepts);
      RunExtends(start, before, WEnd);
      history, steps := history.(worker := Resting), before + [WEnd];
    }

    /** A pass with the flag up. */
    method Pass(accepts: Link -> nat) returns (ghost steps: seq<Label>)
      requires Matches() && history.worker == Resting && sendFlag
      requires history.registered <= history.queues.Keys
      modifies `history, `sendFlag, repr`sendBuffList
      ensures Matches() && history.worker == Resting && PassDone(old(history), history, accepts)
      ensures Legal(old(history), steps) && history == Run(old(history), steps)
    {
      hide *;
      steps := BeginPass(accepts);
      steps := VisitAll(accepts, old(history.queues), old(history), steps);
      steps := EndPass(accepts, old(history), steps);
    }

    /** The worker's pass; accepts tells how many sends in a row the socket of each link takes. */
    method DoSendBuff(accepts: Link -> nat) returns (ghost steps: seq<Label>)
      requires Valid()
      modifies `history, `sendFlag, repr`sendBuffList
      ensures Valid()
      ensures Legal(old(history), steps) && history == Run(old(history), steps)
      ensures if old(sendFlag) then PassDone(old(history), history, accepts) else history == old(history)
    {
      if !sendFlag {
        return [];
      }
      assert history.registered <= history.queues.Keys;
      hide Sockets, Matches, Run, Legal, PassDone;
      steps := Pass(accepts);
    }
  }
}
