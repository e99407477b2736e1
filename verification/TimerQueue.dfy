/**
 The timer queue: a std::set of timers ordered by (deadline, id), rescheduled as they fire. The clock
 is a parameter of every operation that reads it.
 */
module Timers {
  import opened Bytes

  type Callback = nat

  datatype Timer = Timer(id: uint32, interval: nat, start: nat, onTimer: Callback, arg: nat)

  function Deadline(t: Timer): nat {
    t.start + t.interval
  }

  /** Timer::operator<. */
  predicate Before(a: Timer, b: Timer) {
    Deadline(a) < Deadline(b) || (Deadline(a) == Deadline(b) && a.id < b.id)
  }

  /** A std::set's elements in iteration order. */
  predicate Sorted(ts: seq<Timer>) {
    forall i, j :: 0 <= i < j < |ts| ==> Before(ts[i], ts[j])
  }

  predicate UniqueIds(ts: seq<Timer>) {
    forall i, j :: 0 <= i < j < |ts| ==> ts[i].id != ts[j].id
  }

  predicate WellFormed(ts: seq<Timer>) {
    Sorted(ts) && UniqueIds(ts)
  }

  /** std::set::insert: an element equivalent to one already there is rejected. */
  function Insert(ts: seq<Timer>, t: Timer): seq<Timer> {
    if ts == [] || Before(t, ts[0]) then [t] + ts
    else if Before(ts[0], t) then [ts[0]] + Insert(ts[1..], t)
    else ts
  }

  predicate HasId(ts: seq<Timer>, id: uint32) {
    exists i :: 0 <= i < |ts| && ts[i].id == id
  }

  /** Insertion of a new id is never rejected and only puts the timer in its place. */
  lemma {:induction false} InsertNew(ts: seq<Timer>, t: Timer)
    requires WellFormed(ts) && !HasId(ts, t.id)
    ensures WellFormed(Insert(ts, t))
    ensures multiset(Insert(ts, t)) == multiset(ts) + multiset{t}
    ensures |Insert(ts, t)| == |ts| + 1
  {
    if ts == [] || Before(t, ts[0]) {
    } else {
      var rest := ts[1..];
      assert ts[0].id != t.id;
      assert !HasId(rest, t.id);
      InsertNew(rest, t);
      assert ts == [ts[0]] + rest;
      var r := Insert(rest, t);
      forall i | 0 <= i < |r| ensures Before(ts[0], r[i]) && ts[0].id != r[i].id {
        OneOfTheInserted(rest, t, i);
      }
      hide Insert, Before;
    }
  }

  /** What is in the set after an insertion was there before or is the new timer. */
  lemma OneOfTheInserted(ts: seq<Timer>, t: Timer, i: nat)
    requires multiset(Insert(ts, t)) == multiset(ts) + multiset{t} && i < |Insert(ts, t)|
    ensures Insert(ts, t)[i] == t || Insert(ts, t)[i] in ts
  {
    hide Insert;
    assert Insert(ts, t)[i] in multiset(Insert(ts, t));
  }

  /** The set without the first timer of an id. */
  function Without(ts: seq<Timer>, id: uint32): seq<Timer> {
    if ts == [] then [] else if ts[0].id == id then ts[1..] else [ts[0]] + Without(ts[1..], id)
  }

  lemma {:induction false} WithoutKeeps(ts: seq<Timer>, id: uint32)
    requires WellFormed(ts)
    ensures WellFormed(Without(ts, id)) && !HasId(Without(ts, id), id)
    ensures forall t :: t in Without(ts, id) <==> t in ts && t.id != id
  {
    if ts != [] && ts[0].id != id {
      var r := Without(ts[1..], id);
      WithoutKeeps(ts[1..], id);
      forall i | 0 <= i < |r| ensures Before(ts[0], r[i]) && ts[0].id != r[i].id {
        assert r[i] in ts[1..];
      }
    }
  }

  predicate Due(ts: seq<Timer>, now: nat) {
    ts != [] && Deadline(ts[0]) <= now
  }

  function Rearmed(t: Timer): Timer {
    t.(start := t.start + t.interval)
  }

  /** The set after one peek. */
  function AfterPeek(ts: seq<Timer>, now: nat): seq<Timer> {
    if Due(ts, now) then Insert(ts[1..], Rearmed(ts[0])) else ts
  }

  /** A peek re-inserts what it fires: same ids, same number of timers. */
  lemma PeekKeeps(ts: seq<Timer>, now: nat)
    requires WellFormed(ts)
    ensures WellFormed(AfterPeek(ts, now)) && |AfterPeek(ts, now)| == |ts|
    ensures Due(ts, now) ==>
      forall t :: t in AfterPeek(ts, now) <==> t == Rearmed(ts[0]) || t in ts[1..]
  {
    if Due(ts, now) {
      var rest, t := ts[1..], Rearmed(ts[0]);
      assert !HasId(rest, t.id);
      InsertNew(rest, t);
      forall x ensures x in Insert(rest, t) <==> x == t || x in rest {
        assert x in Insert(rest, t) <==> x in multiset(Insert(rest, t));
        assert x in rest <==> x in multiset(rest);
      }
    }
  }

  datatype Operation =
    | Set(id: uint32, elapse: uint32, onTimer: Callback, arg: nat, clock: nat)
    | Kill(id: uint32)
    | PeekAt(clock: nat)

  function Apply(ts: seq<Timer>, op: Operation): seq<Timer> {
    match op
    case Set(id, elapse, onTimer, arg, now) => Insert(Without(ts, id), Timer(id, elapse, now, onTimer, arg))
    case Kill(id) => Without(ts, id)
    case PeekAt(now) => AfterPeek(ts, now)
  }

  /** One turn of the search for an id. */
  lemma SearchGoesOn(ts: seq<Timer>, i: nat, id: uint32)
    requires i < |ts|
    ensures ts[..i] + Without(ts[i..], id)
         == if ts[i].id == id then ts[..i] + ts[i + 1..] else ts[..i + 1] + Without(ts[i + 1..], id)
  {
    assert ts[i..][1..] == ts[i + 1..];
    assert ts[..i + 1] == ts[..i] + [ts[i]];
    if ts[i].id != id {
      assert Without(ts[i..], id) == [ts[i]] + Without(ts[i + 1..], id);
    }
  }

  class TimerQueue {
    var timers: seq<Timer>

    constructor ()
      ensures timers == []
    {
      timers := [];
    }

    method SetTimer(id: uint32, elapse: uint32, onTimer: Callback, arg: nat, now: nat)
      requires WellFormed(timers)
      modifies this
      ensures WellFormed(timers)
      ensures timers == Apply(old(timers), Set(id, elapse, onTimer, arg, now))
      ensures forall t :: t in timers <==> t == Timer(id, elapse, now, onTimer, arg) || (t in old(timers) && t.id != id)
    {
      Erase(id);
      var timer := Timer(id, elapse, now, onTimer, arg);
      ghost var others := timers;
      WithoutKeeps(old(timers), id);
      InsertNew(timers, timer);
      timers := Insert(timers, timer);
      forall t ensures t in timers <==> t == timer || t in others {
        assert t in timers <==> t in multiset(timers);
        assert t in others <==> t in multiset(others);
      }
    }

    method KillTimer(id: uint32)
      requires WellFormed(timers)
      modifies this
      ensures WellFormed(timers) && timers == Apply(old(timers), Kill(id))
      ensures forall t :: t in timers <==> t in old(timers) && t.id != id
    {
      Erase(id);
      WithoutKeeps(old(timers), id);
    }

    predicate Empty()
      reads this
    {
      timers == []
    }

    method Peek(now: nat) returns (fired: bool, id: uint32, onTimer: Callback, arg: nat)
      requires WellFormed(timers)
      modifies this
      ensures WellFormed(timers) && |timers| == |old(timers)|
      ensures fired <==> Due(old(timers), now)
      ensures timers == Apply(old(timers), PeekAt(now))
      ensures fired ==> var t := old(timers)[0];
        && id == t.id && onTimer == t.onTimer && arg == t.arg && t.start + t.interval <= now
        && (forall o :: o in old(timers) ==>
              o == t || t.start + t.interval < o.start + o.interval
              || (t.start + t.interval == o.start + o.interval && t.id < o.id))
        && (forall o :: o in timers <==>
              || o == Timer(t.id, t.interval, t.start + t.interval, t.onTimer, t.arg)
              || (o in old(timers) && o.id != t.id))
      ensures !fired ==> timers == old(timers) && forall o :: o in timers ==> now < o.start + o.interval
    {
      PeekKeeps(timers, now);
      id, onTimer, arg := 0, 0, 0;
      if timers == [] {
        return false, id, onTimer, arg;
      }
      var firstTimer := timers[0];
      var endTime := firstTimer.start + firstTimer.interval;
      if now >= endTime {
        id, onTimer, arg := firstTimer.id, firstTimer.onTimer, firstTimer.arg;
        timers := timers[1..];
        firstTimer := firstTimer.(start := firstTimer.start + firstTimer.interval);
        timers := Insert(timers, firstTimer);
        return true, id, onTimer, arg;
      }
      return false, id, onTimer, arg;
    }

    /** Zero exactly when a peek at the same instant fires; otherwise the time until one would. */
    method GetWaitTime(now: nat) returns (wait: nat)
      requires WellFormed(timers)
      ensures timers == [] ==> wait == 60 * 60 * 1000
      ensures timers != [] ==> (wait == 0 <==> exists t :: t in timers && t.start + t.interval <= now)
      ensures timers != [] && wait > 0 ==>
        && (exists t :: t in timers && t.start + t.interval == now + wait)
        && (forall t :: t in timers ==> now + wait <= t.start + t.interval)
    {
      if timers == [] {
        return 60 * 60 * 1000;
      }
      var firstTimer := timers[0];
      var endTime := firstTimer.start + firstTimer.interval;
      assert firstTimer in timers;
      return if now <= endTime then endTime - now else 0;
    }

    method Erase(id: uint32)
      modifies this
      ensures timers == Without(old(timers), id)
    {
      var i := 0;
      while i < |timers|
        invariant 0 <= i <= |timers| && timers == old(timers)
        invariant timers[..i] + Without(timers[i..], id) == Without(timers, id)
      {
        SearchGoesOn(timers, i, id);
        if timers[i].id == id {
          timers := timers[..i] + timers[i + 1..];
          return;
        }
        i := i + 1;
      }
      assert timers[..i] == timers;
    }
  }

  // ---- Any sequence of operations ----

  function ApplyAll(ts: seq<Timer>, ops: seq<Operation>): seq<Timer>
    decreases |ops|
  {
    if ops == [] then ts else ApplyAll(Apply(ts, ops[0]), ops[1..])
  }

  /** Ids stay unique and the order strict, so no insertion is ever rejected; and as no timer starts
      after a clock reading, no deadline passes the latest reading by more than a 32-bit interval. */
  predicate Sound(ts: seq<Timer>, latest: nat) {
    && WellFormed(ts)
    && (forall t :: t in ts ==> t.start <= latest && t.interval < 0x1_0000_0000)
  }

  lemma ApplyKeepsSound(ts: seq<Timer>, op: Operation, latest: nat)
    requires Sound(ts, latest) && !(op.Set? && op.clock > latest) && !(op.PeekAt? && op.clock > latest)
    ensures Sound(Apply(ts, op), latest)
    ensures op.PeekAt? ==> |Apply(ts, op)| == |ts|
    ensures op.Set? ==> HasId(Apply(ts, op), op.id) && |Apply(ts, op)| == |Without(ts, op.id)| + 1
  {
    match op
    case Set(id, elapse, onTimer, arg, now) =>
      var t := Timer(id, elapse, now, onTimer, arg);
      var others := Without(ts, id);
      WithoutKeeps(ts, id);
      InsertNew(others, t);
      var r := Insert(others, t);
      assert t in multiset(r);
      forall x | x in r ensures x.start <= latest && x.interval < 0x1_0000_0000 {
        assert x in multiset(r);
        assert x == t || x in others;
      }
      var i :| 0 <= i < |r| && r[i] == t;
    case Kill(id) =>
      WithoutKeeps(ts, id);
    case PeekAt(now) =>
      PeekKeeps(ts, now);
  }

  predicate ClocksUpTo(ops: seq<Operation>, latest: nat) {
    forall op :: op in ops ==> !(op.Set? && op.clock > latest) && !(op.PeekAt? && op.clock > latest)
  }

  lemma {:induction false} EveryRunSound(ops: seq<Operation>, ts: seq<Timer>, latest: nat)
    requires Sound(ts, latest) && ClocksUpTo(ops, latest)
    ensures Sound(ApplyAll(ts, ops), latest)
    ensures forall t :: t in ApplyAll(ts, ops) ==> Deadline(t) < latest + 0x1_0000_0000
    decreases |ops|
  {
    if ops != [] {
      ApplyKeepsSound(ts, ops[0], latest);
      EveryRunSound(ops[1..], Apply(ts, ops[0]), latest);
    }
  }

  // ---- Runs of peeks ----

  /** The timers fired by peeks at the given clock readings, as they were when they fired, and the set after. */
  function RunPeeks(ts: seq<Timer>, clocks: seq<nat>): (seq<Timer>, seq<Timer>)
    decreases |clocks|
  {
    if clocks == [] then ([], ts)
    else
      var (fired, end) := RunPeeks(AfterPeek(ts, clocks[0]), clocks[1..]);
      ((if Due(ts, clocks[0]) then [ts[0]] else []) + fired, end)
  }

  lemma {:induction false} FiredAfter(ts: seq<Timer>, clocks: seq<nat>, first: Timer)
    requires WellFormed(ts) && forall t :: t in ts ==> Before(first, t) && t.interval > 0
    ensures forall f :: f in RunPeeks(ts, clocks).0 ==> Before(first, f)
    decreases |clocks|
  {
    if clocks != [] {
      PeekKeeps(ts, clocks[0]);
      FiredAfter(AfterPeek(ts, clocks[0]), clocks[1..], first);
    }
  }

  lemma {:induction false} FiredSorted(ts: seq<Timer>, clocks: seq<nat>)
    requires WellFormed(ts) && forall t :: t in ts ==> t.interval > 0
    ensures Sorted(RunPeeks(ts, clocks).0)
    decreases |clocks|
  {
    if clocks != [] {
      PeekKeeps(ts, clocks[0]);
      var next := AfterPeek(ts, clocks[0]);
      FiredSorted(next, clocks[1..]);
      if Due(ts, clocks[0]) {
        FiredAfter(next, clocks[1..], ts[0]);
      }
    }
  }

  /** Whatever the clock readings, timers with positive intervals fire in strictly increasing order of
      deadline, and of id among equal deadlines. */
  lemma FiringOrder(ts: seq<Timer>, clocks: seq<nat>)
    requires WellFormed(ts) && forall t :: t in ts ==> t.interval > 0
    ensures var f := RunPeeks(ts, clocks).0;
      forall i, j :: 0 <= i < j < |f| ==>
        || f[i].start + f[i].interval < f[j].start + f[j].interval
        || (f[i].start + f[i].interval == f[j].start + f[j].interval && f[i].id < f[j].id)
  {
    FiredSorted(ts, clocks);
    var f := RunPeeks(ts, clocks).0;
    forall i, j | 0 <= i < j < |f|
      ensures f[i].start + f[i].interval < f[j].start + f[j].interval
        || (f[i].start + f[i].interval == f[j].start + f[j].interval && f[i].id < f[j].id)
    {
      assert Before(f[i], f[j]);
    }
  }

  function FiredOf(fired: seq<Timer>, id: uint32): seq<Timer> {
    if fired == [] then []
    else (if fired[0].id == id then [fired[0]] else []) + FiredOf(fired[1..], id)
  }

  function Advanced(t: Timer, k: nat): Timer {
    t.(start := t.start + k * t.interval)
  }

  lemma AdvancedStep(t: Timer, k: nat)
    ensures Advanced(Rearmed(t), k) == Advanced(t, k + 1)
  {
    assert (k + 1) * t.interval == k * t.interval + t.interval;
  }

  /** The firings of a timer that started as t, and the set they leave. */
  ghost predicate FiresInStep(mine: seq<Timer>, t: Timer, end: seq<Timer>) {
    && (forall k :: 0 <= k < |mine| ==> mine[k] == Advanced(t, k))
    && Advanced(t, |mine|) in end
  }

  lemma FiresOnceMore(t: Timer, rest: seq<Timer>, end: seq<Timer>)
    requires FiresInStep(rest, Rearmed(t), end)
    ensures FiresInStep([t] + rest, t, end)
  {
    var mine := [t] + rest;
    forall k | 0 <= k < |mine| ensures mine[k] == Advanced(t, k) {
      if k > 0 {
        assert mine[k] == rest[k - 1] == Advanced(Rearmed(t), k - 1);
        AdvancedStep(t, k - 1);
      }
    }
    AdvancedStep(t, |rest|);
  }

  lemma {:induction false} FiringsInStep(ts: seq<Timer>, clocks: seq<nat>, t: Timer)
    requires WellFormed(ts) && t in ts
    ensures FiresInStep(FiredOf(RunPeeks(ts, clocks).0, t.id), t, RunPeeks(ts, clocks).1)
    decreases |clocks|
  {
    hide Before, Insert, FiresInStep;
    if clocks == [] {
      NoFiring(t, ts);
    } else {
      PeekKeeps(ts, clocks[0]);
      var next := AfterPeek(ts, clocks[0]);
      var fired := RunPeeks(next, clocks[1..]).0;
      if Due(ts, clocks[0]) {
        assert ([ts[0]] + fired)[1..] == fired;
        if t == ts[0] {
          FiringsInStep(next, clocks[1..], Rearmed(t));
          FiresOnceMore(t, FiredOf(fired, t.id), RunPeeks(next, clocks[1..]).1);
        } else {
          assert t in ts[1..] && ts[0].id != t.id;
          FiringsInStep(next, clocks[1..], t);
          assert [] + FiredOf(fired, t.id) == FiredOf(fired, t.id);
        }
      } else {
        assert [] + fired == fired;
        FiringsInStep(next, clocks[1..], t);
      }
    }
  }

  lemma NoFiring(t: Timer, ts: seq<Timer>)
    requires t in ts
    ensures FiresInStep([], t, ts)
  {
    assert Advanced(t, 0) == t;
  }

  /** However late it is polled, the k-th firing of a timer has deadline start + k * interval (counting
      from one), and after n firings it is the same timer with its start moved on n intervals. */
  lemma KthFiring(ts: seq<Timer>, clocks: seq<nat>, t: Timer)
    requires WellFormed(ts) && t in ts
    ensures var (fired, end) := RunPeeks(ts, clocks); var mine := FiredOf(fired, t.id);
      && (forall k :: 1 <= k <= |mine| ==> Deadline(mine[k - 1]) == t.start + k * t.interval)
      && t.(start := t.start + |mine| * t.interval) in end
  {
    FiringsInStep(ts, clocks, t);
    forall k | 1 <= k <= |FiredOf(RunPeeks(ts, clocks).0, t.id)|
      ensures Deadline(Advanced(t, k - 1)) == t.start + k * t.interval
    {
      AdvancedStep(t, k - 1);
    }
  }

  // ---- Catching up with a stopped clock ----

  function Frozen(now: nat, n: nat): seq<nat> {
    seq(n, _ => now)
  }

  /** The number of deadlines of a timer up to now. */
  function Pending(t: Timer, now: nat): nat {
    if now < Deadline(t) || t.interval == 0 then 0 else (now - t.start) / t.interval
  }

  lemma PendingIsFloor(t: Timer, now: nat)
    requires t.interval > 0
    ensures Pending(t, now) == if now <= t.start then 0 else (now - t.start) / t.interval
    ensures Pending(t, now) > 0 <==> Deadline(t) <= now
  {
    if t.start < now < Deadline(t) {
      DivideSmall(now - t.start, t.interval);
    } else if Deadline(t) <= now {
      DivideStep(now - t.start, t.interval);
    }
  }

  lemma DivideSmall(a: nat, d: nat)
    requires a < d
    ensures a / d == 0
  {
  }

  lemma DivideStep(a: nat, d: nat)
    requires 0 < d <= a
    ensures a / d == (a - d) / d + 1
  {
    var q := (a - d) / d;
    assert a == (q + 1) * d + (a - d) % d by {
      assert (q + 1) * d == q * d + d;
    }
    UniqueQuotient(a, d, q + 1, (a - d) % d);
  }

  lemma UniqueQuotient(a: nat, d: nat, q: nat, r: nat)
    requires d > 0 && r < d && a == q * d + r
    ensures a / d == q
  {
    var p := a / d;
    assert a == p * d + a % d;
    if p < q {
      MultiplyGap(p, q, d);
    } else if q < p {
      MultiplyGap(q, p, d);
    }
  }

  lemma MultiplyGap(p: nat, q: nat, d: nat)
    requires p < q
    ensures p * d + d <= q * d
  {
    var g: nat := q - p - 1;
    assert q * d == p * d + d + g * d;
  }

  function TotalPending(ts: seq<Timer>, now: nat): nat {
    if ts == [] then 0 else Pending(ts[0], now) + TotalPending(ts[1..], now)
  }

  lemma {:induction false} TotalOfInsert(ts: seq<Timer>, t: Timer, now: nat)
    requires WellFormed(ts) && !HasId(ts, t.id)
    ensures TotalPending(Insert(ts, t), now) == TotalPending(ts, now) + Pending(t, now)
  {
    if ts == [] || Before(t, ts[0]) {
      assert ([t] + ts)[1..] == ts;
    } else {
      assert ts[0].id != t.id;
      TotalOfInsert(ts[1..], t, now);
      assert ([ts[0]] + Insert(ts[1..], t))[1..] == Insert(ts[1..], t);
    }
  }

  /** No timer that is due has a zero interval. */
  predicate Settles(ts: seq<Timer>, now: nat) {
    forall t :: t in ts && Deadline(t) <= now ==> t.interval > 0
  }

  lemma PeekCatchesUpByOne(ts: seq<Timer>, now: nat)
    requires WellFormed(ts) && Settles(ts, now) && Due(ts, now)
    ensures TotalPending(ts, now) == TotalPending(AfterPeek(ts, now), now) + 1
    ensures Pending(ts[0], now) == Pending(Rearmed(ts[0]), now) + 1
    ensures Settles(AfterPeek(ts, now), now)
  {
    var t, t' := ts[0], Rearmed(ts[0]);
    assert t in ts;
    PeekKeeps(ts, now);
    assert !HasId(ts[1..], t'.id);
    TotalOfInsert(ts[1..], t', now);
    OneFiringLess(t, now);
  }

  lemma OneFiringLess(t: Timer, now: nat)
    requires t.interval > 0 && Deadline(t) <= now
    ensures Pending(t, now) == Pending(Rearmed(t), now) + 1
  {
    var t' := Rearmed(t);
    PendingIsFloor(t, now);
    PendingIsFloor(t', now);
    DivideStep(now - t.start, t.interval);
    if now == t'.start {
      DivideSmall(0, t.interval);
    }
  }

  lemma {:induction false} NothingPending(ts: seq<Timer>, now: nat)
    requires WellFormed(ts) && !Due(ts, now)
    ensures TotalPending(ts, now) == 0
    ensures forall t :: t in ts ==> now < Deadline(t) && Pending(t, now) == 0
  {
    if ts != [] {
      assert forall i :: 0 < i < |ts| ==> Before(ts[0], ts[i]);
      NothingPending(ts[1..], now);
    }
  }

  /** Catch-up is exact and ends: with the clock stopped, polling fires every timer exactly once for
      each of its deadlines up to now, no more and no fewer, and then leaves only later deadlines. */
  lemma {:induction false} CatchUp(ts: seq<Timer>, now: nat)
    requires WellFormed(ts) && Settles(ts, now)
    ensures var n := TotalPending(ts, now); var (fired, end) := RunPeeks(ts, Frozen(now, n));
      && |fired| == n
      && !Due(end, now) && (forall t :: t in end ==> now < Deadline(t))
      && (forall t :: t in ts ==> |FiredOf(fired, t.id)| == Pending(t, now))
    decreases TotalPending(ts, now)
  {
    hide WellFormed, Settles, Pending, TotalPending, AfterPeek, RunPeeks, Due, FiredOf, Frozen;
    var n := TotalPending(ts, now);
    if !Due(ts, now) {
      NothingToCatchUp(ts, now);
    } else {
      PeekCatchesUpByOne(ts, now);
      SettledKeepsForm(ts, now);
      var next := AfterPeek(ts, now);
      OnePeekMore(ts, now, n);
      CatchUp(next, now);
      CatchUpOne(ts, now, RunPeeks(next, Frozen(now, n - 1)).0);
    }
  }

  lemma NothingToCatchUp(ts: seq<Timer>, now: nat)
    requires WellFormed(ts) && !Due(ts, now)
    ensures TotalPending(ts, now) == 0 && RunPeeks(ts, Frozen(now, 0)) == ([], ts)
    ensures forall t :: t in ts ==> now < Deadline(t) && |FiredOf([], t.id)| == Pending(t, now)
  {
    NothingPending(ts, now);
  }

  lemma SettledKeepsForm(ts: seq<Timer>, now: nat)
    requires WellFormed(ts)
    ensures WellFormed(AfterPeek(ts, now))
  {
    PeekKeeps(ts, now);
  }

  lemma OnePeekMore(ts: seq<Timer>, now: nat, n: nat)
    requires Due(ts, now) && n > 0
    ensures var (fired, end) := RunPeeks(AfterPeek(ts, now), Frozen(now, n - 1));
      RunPeeks(ts, Frozen(now, n)) == ([ts[0]] + fired, end)
  {
    assert Frozen(now, n)[0] == now && Frozen(now, n)[1..] == Frozen(now, n - 1);
  }

  /** The first firing, then those of the rest of the catch-up. */
  lemma CatchUpOne(ts: seq<Timer>, now: nat, later: seq<Timer>)
    requires WellFormed(ts) && Settles(ts, now) && Due(ts, now)
    requires forall t :: t in AfterPeek(ts, now) ==> |FiredOf(later, t.id)| == Pending(t, now)
    ensures forall t :: t in ts ==> |FiredOf([ts[0]] + later, t.id)| == Pending(t, now)
  {
    hide WellFormed, Settles, Pending;
    PeekCatchesUpByOne(ts, now);
    PeekKeeps(ts, now);
    assert ([ts[0]] + later)[1..] == later;
    forall t | t in ts ensures |FiredOf([ts[0]] + later, t.id)| == Pending(t, now) {
      if t == ts[0] {
        assert Rearmed(t) in AfterPeek(ts, now);
      } else {
        OthersStay(ts, now, t);
      }
    }
  }

  lemma OthersStay(ts: seq<Timer>, now: nat, t: Timer)
    requires WellFormed(ts) && Due(ts, now) && t in ts && t != ts[0]
    ensures t in AfterPeek(ts, now) && t.id != ts[0].id
  {
    var i :| 0 < i < |ts| && ts[i] == t;
    PeekKeeps(ts, now);
    assert t in ts[1..];
  }

  /** A due timer with a zero interval is due again at once, for ever. */
  lemma {:induction false} ZeroIntervalNeverSettles(ts: seq<Timer>, now: nat, n: nat)
    requires WellFormed(ts) && !Settles(ts, now)
    ensures Due(RunPeeks(ts, Frozen(now, n)).1, now)
    decreases n
  {
    var t :| t in ts && Deadline(t) <= now && t.interval == 0;
    assert Due(ts, now) by {
      var i :| 0 <= i < |ts| && ts[i] == t;
      assert i > 0 ==> Before(ts[0], ts[i]);
    }
    if n > 0 {
      PeekKeeps(ts, now);
      var next := AfterPeek(ts, now);
      assert t in next by {
        if t == ts[0] {
          assert Rearmed(t) == t;
        } else {
          assert t in ts[1..];
        }
      }
      assert Frozen(now, n)[1..] == Frozen(now, n - 1);
      ZeroIntervalNeverSettles(next, now, n - 1);
    }
  }

  /** Polling a stopped clock ends if and only if no due timer has a zero interval. */
  lemma CatchUpEndsExactly(ts: seq<Timer>, now: nat)
    requires WellFormed(ts)
    ensures (exists n: nat :: !Due(RunPeeks(ts, Frozen(now, n)).1, now)) <==> Settles(ts, now)
  {
    if Settles(ts, now) {
      CatchUp(ts, now);
      assert !Due(RunPeeks(ts, Frozen(now, TotalPending(ts, now))).1, now);
    } else {
      forall n: nat ensures Due(RunPeeks(ts, Frozen(now, n)).1, now) {
        ZeroIntervalNeverSettles(ts, now, n);
      }
    }
  }
}
