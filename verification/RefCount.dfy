/**
 The reference-counting handle as a transition system: any number of threads construct, copy, assign
 and destroy handles; every access to a shared counter is a step of its own.
 An object and the counter allocated for it share an id.
 */
module RefCounting {

  type Id = nat

  type Name = nat

  datatype Option<T> = None | Some(value: T)

  /** What follows a Release: the end of the handle's life, or the rest of an assignment. */
  datatype Then = Gone | AssignFrom(src: Name)

  /** Where the operation running on a handle is. */
  datatype Phase =
    | Idle
    | Adding(src: Name)          // fields copied from src, counter not yet incremented
    | Checking(then_: Then)      // Release entered
    | Decrementing(then_: Then)  // counter seen non-zero
    | DeletingObject(then_: Then)
    | DeletingCounter(then_: Then)
    | Reading(src: Name)         // assignment, after its Release

  datatype Handle = Handle(obj: Option<Id>, ref: Option<Id>, phase: Phase)

  /** fault records an access to a counter or object that has already been deleted. */
  datatype State = State(
    handles: map<Name, Handle>, counters: map<Id, int>, objects: set<Id>, deleted: seq<Id>, next: Id, fault: bool)

  const INIT := State(map[], map[], {}, [], 0, false)

  datatype Label =
    | Construct(h: Name)            // explicit CRefCountPtr(p), p newly allocated
    | Default(h: Name)
    | Copy(h: Name, src: Name)      // copy constructor: read both fields
    | Add(h: Name)                  // __sync_fetch_and_add
    | Destroy(h: Name)
    | Assign(h: Name, src: Name)
    | Check(h: Name)                // m_pRef && *m_pRef != 0
    | Decrement(h: Name)            // __sync_sub_and_fetch
    | DeleteObject(h: Name)
    | DeleteCounter(h: Name)
    | Read(h: Name)                 // m_pObj = rcf.m_pObj; if non-null, m_pRef = rcf.m_pRef

  /** A handle some unfinished copy or assignment still reads from. */
  predicate Pinned(s: State, src: Name) {
    exists h :: h in s.handles && Source(s.handles[h].phase) == Some(src)
  }

  function Source(p: Phase): Option<Name> {
    match p
    case Adding(src) => Some(src)
    case Reading(src) => Some(src)
    case Checking(AssignFrom(src)) => Some(src)
    case Decrementing(AssignFrom(src)) => Some(src)
    case DeletingObject(AssignFrom(src)) => Some(src)
    case DeletingCounter(AssignFrom(src)) => Some(src)
    case _ => None
  }

  predicate IsIdle(s: State, h: Name) {
    h in s.handles && s.handles[h].phase == Idle
  }

  /** What the code can do next. An operation starts on an idle handle. */
  predicate Enabled(s: State, l: Label) {
    match l
    case Construct(h) => h !in s.handles
    case Default(h) => h !in s.handles
    case Copy(h, src) => h !in s.handles && IsIdle(s, src)
    case Destroy(h) => IsIdle(s, h)
    case Assign(h, src) => IsIdle(s, h) && IsIdle(s, src)
    case Add(h) => h in s.handles && s.handles[h].phase.Adding?
    case Check(h) => h in s.handles && s.handles[h].phase.Checking?
    case Decrement(h) => h in s.handles && s.handles[h].phase.Decrementing?
    case DeleteObject(h) => h in s.handles && s.handles[h].phase.DeletingObject?
    case DeleteCounter(h) => h in s.handles && s.handles[h].phase.DeletingCounter?
    case Read(h) => h in s.handles && s.handles[h].phase.Reading? && s.handles[h].phase.src in s.handles
  }

  /** What callers must keep to: a source outlives the copy or assignment made from it, and an
      assignment's source is a distinct, non-null handle. */
  predicate Disciplined(s: State, l: Label) {
    match l
    case Destroy(h) => !Pinned(s, h)
    case Assign(h, src) => !Pinned(s, h) && h != src && src in s.handles && s.handles[src].obj.Some?
    case _ => true
  }

  function Set(s: State, h: Name, v: Handle): State {
    s.(handles := s.handles[h := v])
  }

  /** The end of a Release: the handle is gone, or its assignment goes on. */
  function Released(s: State, h: Name, v: Handle, t: Then): State {
    match t
    case Gone => s.(handles := s.handles - {h})
    case AssignFrom(src) => Set(s, h, v.(phase := Reading(src)))
  }

  /** An access to a counter; a deleted one is a fault. */
  function Bump(s: State, r: Id, delta: int): State {
    if r in s.counters then s.(counters := s.counters[r := s.counters[r] + delta]) else s.(fault := true)
  }

  function Step(s: State, l: Label): State
    requires Enabled(s, l)
  {
    match l
    case Construct(h) =>
      State(s.handles[h := Handle(Some(s.next), Some(s.next), Idle)], s.counters[s.next := 1],
            s.objects + {s.next}, s.deleted, s.next + 1, s.fault)
    case Default(h) => Set(s, h, Handle(None, None, Idle))
    case Copy(h, src) =>
      var v := s.handles[src];
      Set(s, h, v.(phase := if v.ref.Some? then Adding(src) else Idle))
    case Add(h) =>
      var v := s.handles[h];
      if v.ref.None? then Set(s, h, v.(phase := Idle)).(fault := true)
      else Set(Bump(s, v.ref.value, 1), h, v.(phase := Idle))
    case Destroy(h) => Set(s, h, s.handles[h].(phase := Checking(Gone)))
    case Assign(h, src) => Set(s, h, s.handles[h].(phase := Checking(AssignFrom(src))))
    case Check(h) =>
      var v := s.handles[h];
      if v.ref.None? then Released(s, h, v, v.phase.then_)
      else if v.ref.value !in s.counters then Released(s.(fault := true), h, v, v.phase.then_)
      else if s.counters[v.ref.value] == 0 then Released(s, h, v, v.phase.then_)
      else Set(s, h, v.(phase := Decrementing(v.phase.then_)))
    case Decrement(h) =>
      var v := s.handles[h];
      if v.ref.None? then Released(s.(fault := true), h, v, v.phase.then_)
      else
        var s' := Bump(s, v.ref.value, -1);
        if v.ref.value in s'.counters && s'.counters[v.ref.value] == 0
        then Set(s', h, v.(phase := DeletingObject(v.phase.then_)))
        else Released(s', h, v, v.phase.then_)
    case DeleteObject(h) =>
      var v := s.handles[h];
      var s' := if v.obj.None? then s
                else s.(objects := s.objects - {v.obj.value}, deleted := s.deleted + [v.obj.value],
                        fault := s.fault || v.obj.value !in s.objects);
      Set(s', h, v.(obj := None, phase := DeletingCounter(v.phase.then_)))
    case DeleteCounter(h) =>
      var v := s.handles[h];
      var s' := if v.ref.None? then s
                else s.(counters := s.counters - {v.ref.value}, fault := s.fault || v.ref.value !in s.counters);
      Released(s', h, v.(ref := None), v.phase.then_)
    case Read(h) =>
      var v, from := s.handles[h], s.handles[s.handles[h].phase.src];
      if from.obj.None? then Set(s, h, v.(obj := None, phase := Idle))
      else Set(s, h, Handle(from.obj, from.ref, Adding(v.phase.src)))
  }

  // ---- Soundness ----

  /** A handle whose share is in the counter of r. */
  predicate Counted(v: Handle, r: Id) {
    v.ref == Some(r) && (v.phase.Idle? || v.phase.Checking? || v.phase.Decrementing?)
  }

  /** A handle that has taken the counter of r to zero and is deleting. */
  predicate Deleting(v: Handle, r: Id) {
    v.ref == Some(r) && (v.phase.DeletingObject? || v.phase.DeletingCounter?)
  }

  function Holders(s: State, r: Id): set<Name> {
    set h | h in s.handles && Counted(s.handles[h], r)
  }

  /** One handle's fields agree with its phase and with the shared state. */
  predicate HandleOk(s: State, h: Name)
    requires h in s.handles
  {
    var v := s.handles[h];
    match v.phase
    case Idle => v.obj == v.ref && (v.ref.Some? ==> v.ref.value in s.counters && v.ref.value in s.objects)
    case Checking(t) => v.obj == v.ref && ThenOk(s, h, t)
                        && (v.ref.Some? ==> v.ref.value in s.counters && v.ref.value in s.objects)
    case Decrementing(t) => v.obj == v.ref && v.ref.Some? && ThenOk(s, h, t)
                            && v.ref.value in s.counters && v.ref.value in s.objects
    case DeletingObject(t) => v.obj == v.ref && v.ref.Some? && v.ref.value in s.counters && v.ref.value in s.objects
                              && s.counters[v.ref.value] == 0 && ThenOk(s, h, t)
    case DeletingCounter(t) => v.obj == None && v.ref.Some? && v.ref.value in s.counters && v.ref.value !in s.objects
                               && s.counters[v.ref.value] == 0 && ThenOk(s, h, t)
    case Reading(src) => ThenOk(s, h, AssignFrom(src))
    case Adding(src) => h != src && IsIdle(s, src) && v.ref.Some? && v.obj == v.ref && s.handles[src].ref == v.ref
  }

  predicate ThenOk(s: State, h: Name, t: Then) {
    t.AssignFrom? ==> t.src != h && IsIdle(s, t.src) && s.handles[t.src].obj.Some?
  }

  /** A counter counts the handles that still hold its object; a zero one is being deleted by one handle. */
  ghost predicate CounterOk(s: State, r: Id)
    requires r in s.counters
  {
    && s.counters[r] == |Holders(s, r)|
    && (s.counters[r] == 0 ==> exists h :: h in s.handles && Deleting(s.handles[h], r))
    && (r in s.objects || s.counters[r] == 0)
  }

  ghost predicate HandlesOk(s: State) {
    forall h :: h in s.handles ==> HandleOk(s, h)
  }

  ghost predicate CountersOk(s: State) {
    forall r :: r in s.counters ==> CounterOk(s, r)
  }

  ghost predicate OneDeleter(s: State) {
    forall h, k, r :: DeletingAt(s, h, r) && DeletingAt(s, k, r) ==> h == k
  }

  /** Every object was made by one construction and is alive or was deleted, exactly once. */
  ghost predicate LivesOk(s: State) {
    && (forall r :: r in s.counters || r in s.deleted ==> r < s.next)
    && (forall r :: r in s.objects ==> r in s.counters)
    && (forall r :: 0 <= r < s.next ==> (r in s.objects <==> r !in s.deleted))
    && (forall i, j :: 0 <= i < j < |s.deleted| ==> s.deleted[i] != s.deleted[j])
  }

  ghost predicate Sound(s: State) {
    !s.fault && HandlesOk(s) && CountersOk(s) && OneDeleter(s) && LivesOk(s)
  }

  // ---- What one handle's step can change ----

  /** The handles of the two states agree except at h. */
  ghost predicate SameBut(s: State, s': State, h: Name) {
    && (forall k :: k != h ==> (k in s.handles <==> k in s'.handles))
    && (forall k :: k != h && k in s.handles ==> s.handles[k] == s'.handles[k])
  }

  ghost predicate CountedAt(s: State, h: Name, r: Id) {
    h in s.handles && Counted(s.handles[h], r)
  }

  ghost predicate DeletingAt(s: State, h: Name, r: Id) {
    h in s.handles && Deleting(s.handles[h], r)
  }

  lemma HoldersAfter(s: State, s': State, h: Name, r: Id)
    requires SameBut(s, s', h)
    ensures |Holders(s', r)|
         == |Holders(s, r)| - (if CountedAt(s, h, r) then 1 else 0) + (if CountedAt(s', h, r) then 1 else 0)
  {
    var rest := Holders(s, r) - {h};
    assert Holders(s, r) == if CountedAt(s, h, r) then rest + {h} else rest;
    assert Holders(s', r) == if CountedAt(s', h, r) then rest + {h} else rest;
  }

  /** A handle that is busy with an operation of its own is nobody's source. */
  lemma OnlyIdlePinned(s: State, h: Name)
    requires HandlesOk(s) && !IsIdle(s, h)
    ensures !Pinned(s, h)
  {
    forall k | k in s.handles ensures Source(s.handles[k].phase) != Some(h) {
      assert HandleOk(s, k);
    }
  }

  /** The other handles stay in order when h, which nobody reads from, changes, as long as the
      counters and objects they refer to stay. */
  lemma OthersOk(s: State, s': State, h: Name)
    requires HandlesOk(s) && SameBut(s, s', h) && !Pinned(s, h)
    requires h in s'.handles ==> HandleOk(s', h)
    requires forall r ::
      (exists k :: k != h && k in s.handles && s.handles[k].ref == Some(r) && !s.handles[k].phase.Reading?) ==>
      && (r in s.counters ==> r in s'.counters && (s.counters[r] == 0 ==> s'.counters[r] == 0))
      && (r in s.objects <==> r in s'.objects)
    ensures HandlesOk(s')
  {
    forall k | k in s'.handles ensures HandleOk(s', k) {
      if k != h {
        assert HandleOk(s, k);
        assert Source(s.handles[k].phase) != Some(h);
      }
    }
  }

  /** The counter clause after a step that changes only h, and h's counter by h's own share. */
  lemma CountersAfter(s: State, s': State, h: Name)
    requires CountersOk(s) && SameBut(s, s', h) && s'.objects == s.objects && s'.counters.Keys == s.counters.Keys
    requires forall r :: r in s.counters ==>
      s'.counters[r] == s.counters[r] - (if CountedAt(s, h, r) then 1 else 0) + (if CountedAt(s', h, r) then 1 else 0)
    requires forall r :: r in s'.counters && s'.counters[r] == 0 ==> s.counters[r] == 0 || DeletingAt(s', h, r)
    requires forall r :: DeletingAt(s, h, r) ==> DeletingAt(s', h, r)
    requires forall r :: CountedAt(s', h, r) ==> r in s.objects
    ensures CountersOk(s')
  {
    forall r | r in s'.counters ensures CounterOk(s', r) {
      HoldersAfter(s, s', h, r);
      assert CounterOk(s, r);
      if s'.counters[r] == 0 && s.counters[r] == 0 {
        var k :| k in s.handles && Deleting(s.handles[k], r);
        assert DeletingAt(s, k, r);
        assert DeletingAt(s', k, r);
      }
    }
  }

  lemma DeletersAfter(s: State, s': State, h: Name)
    requires OneDeleter(s) && SameBut(s, s', h)
    requires forall r :: DeletingAt(s', h, r) ==> DeletingAt(s, h, r) || forall k :: !DeletingAt(s, k, r)
    ensures OneDeleter(s')
  {
    forall k, j, r | DeletingAt(s', k, r) && DeletingAt(s', j, r) ensures k == j {
      assert k != h ==> DeletingAt(s, k, r);
      assert j != h ==> DeletingAt(s, j, r);
    }
  }

  // ---- Every step keeps the counters right ----

  /** A step that only moves h on. */
  lemma PhaseStep(s: State, s': State, h: Name)
    requires Sound(s) && SameBut(s, s', h) && !Pinned(s, h)
    requires s' == s.(handles := s'.handles)
    requires forall r :: CountedAt(s, h, r) <==> CountedAt(s', h, r)
    requires forall r :: DeletingAt(s, h, r) <==> DeletingAt(s', h, r)
    requires h in s'.handles ==> HandleOk(s', h)
    requires forall r :: CountedAt(s', h, r) ==> r in s.objects
    ensures Sound(s')
  {
    OthersOk(s, s', h);
    CountersAfter(s, s', h);
    DeletersAfter(s, s', h);
  }

  lemma DefaultSound(s: State, h: Name)
    requires Sound(s) && Enabled(s, Default(h))
    ensures Sound(Step(s, Default(h)))
  {
    OnlyIdlePinned(s, h);
    PhaseStep(s, Step(s, Default(h)), h);
  }

  lemma CopySound(s: State, h: Name, src: Name)
    requires Sound(s) && Enabled(s, Copy(h, src))
    ensures Sound(Step(s, Copy(h, src)))
  {
    OnlyIdlePinned(s, h);
    assert HandleOk(s, src);
    PhaseStep(s, Step(s, Copy(h, src)), h);
  }

  lemma StartSound(s: State, l: Label)
    requires Sound(s) && Enabled(s, l) && Disciplined(s, l) && (l.Destroy? || l.Assign?)
    ensures Sound(Step(s, l))
  {
    assert HandleOk(s, l.h);
    PhaseStep(s, Step(s, l), l.h);
  }

  lemma CheckSound(s: State, h: Name)
    requires Sound(s) && Enabled(s, Check(h))
    ensures Sound(Step(s, Check(h)))
  {
    OnlyIdlePinned(s, h);
    assert HandleOk(s, h);
    var r := s.handles[h].ref;
    if r.Some? {
      assert h in Holders(s, r.value);
      assert CounterOk(s, r.value);
    }
    PhaseStep(s, Step(s, Check(h)), h);
  }

  lemma ReadSound(s: State, h: Name)
    requires Sound(s) && Enabled(s, Read(h))
    ensures Sound(Step(s, Read(h)))
  {
    OnlyIdlePinned(s, h);
    assert HandleOk(s, h);
    assert HandleOk(s, s.handles[h].phase.src);
    PhaseStep(s, Step(s, Read(h)), h);
  }

  lemma AddSound(s: State, h: Name)
    requires Sound(s) && Enabled(s, Add(h))
    ensures Sound(Step(s, Add(h)))
  {
    var s', src := Step(s, Add(h)), s.handles[h].phase.src;
    OnlyIdlePinned(s, h);
    assert HandleOk(s, h) && HandleOk(s, src);
    assert CounterOk(s, s.handles[h].ref.value) && src in Holders(s, s.handles[h].ref.value);
    OthersOk(s, s', h);
    CountersAfter(s, s', h);
    DeletersAfter(s, s', h);
  }

  /** h gives up its share of r0. */
  lemma ShareDropped(s: State, s': State, h: Name, r0: Id)
    requires Sound(s) && SameBut(s, s', h) && !Pinned(s, h)
    requires CountedAt(s, h, r0) && r0 in s.counters && r0 in s.objects
    requires s' == s.(handles := s'.handles, counters := s.counters[r0 := s.counters[r0] - 1])
    requires h in s'.handles ==> HandleOk(s', h)
    requires forall r :: !CountedAt(s', h, r)
    requires forall r :: DeletingAt(s', h, r) <==> r == r0 && s.counters[r0] == 1
    ensures Sound(s')
  {
    assert CounterOk(s, r0) && h in Holders(s, r0);
    forall k ensures !DeletingAt(s, k, r0) {
      assert k in s.handles ==> HandleOk(s, k);
    }
    OthersOk(s, s', h);
    CountersAfter(s, s', h);
    DeletersAfter(s, s', h);
  }

  lemma DecrementSound(s: State, h: Name)
    requires Sound(s) && Enabled(s, Decrement(h))
    ensures Sound(Step(s, Decrement(h)))
  {
    assert HandleOk(s, h);
    OnlyIdlePinned(s, h);
    ShareDropped(s, Step(s, Decrement(h)), h, s.handles[h].ref.value);
  }

  /** Once a counter is at zero, only the handle deleting it still refers to it. */
  lemma NobodyElse(s: State, h: Name, r: Id)
    requires HandlesOk(s) && CountersOk(s) && OneDeleter(s)
    requires DeletingAt(s, h, r) && r in s.counters && s.counters[r] == 0
    ensures forall k :: k != h && k in s.handles && s.handles[k].ref == Some(r) ==> s.handles[k].phase.Reading?
  {
    assert CounterOk(s, r);
    assert forall k :: k in s.handles && Counted(s.handles[k], r) ==> k in Holders(s, r);
    forall k | k != h && k in s.handles && s.handles[k].ref == Some(r) ensures s.handles[k].phase.Reading? {
      assert HandleOk(s, k);
      assert DeletingAt(s, k, r) <==> Deleting(s.handles[k], r);
    }
  }

  /** The counter clause while h deletes the object or the counter of r0. */
  lemma DeletionKeepsCounters(s: State, s': State, h: Name, r0: Id)
    requires CountersOk(s) && SameBut(s, s', h)
    requires DeletingAt(s, h, r0) && r0 in s.counters && s.counters[r0] == 0
    requires forall r :: r in s'.counters ==>
      r in s.counters && s'.counters[r] == s.counters[r] && (r in s.objects && r != r0 ==> r in s'.objects)
    requires r0 in s'.counters ==> DeletingAt(s', h, r0)
    requires forall r :: !CountedAt(s', h, r)
    ensures CountersOk(s')
  {
    forall r | r in s'.counters ensures CounterOk(s', r) {
      HoldersAfter(s, s', h, r);
      assert CounterOk(s, r);
      if s.counters[r] == 0 {
        var k :| k in s.handles && Deleting(s.handles[k], r);
        assert DeletingAt(s', k, r);
      }
    }
  }

  lemma DeletionStarts(s: State, h: Name, r0: Id)
    requires Sound(s) && h in s.handles && Deleting(s.handles[h], r0)
    ensures HandleOk(s, h) && !Pinned(s, h) && DeletingAt(s, h, r0) && r0 in s.counters && s.counters[r0] == 0
    ensures forall k :: k != h && k in s.handles && s.handles[k].ref == Some(r0) ==> s.handles[k].phase.Reading?
  {
    assert HandleOk(s, h);
    OnlyIdlePinned(s, h);
    NobodyElse(s, h, r0);
  }

  /** The handles other than h are in order when only the object or the counter of r0 goes. */
  lemma OthersUnconcerned(s: State, s': State, h: Name, r0: Id)
    requires HandlesOk(s) && SameBut(s, s', h) && !Pinned(s, h) && (h in s'.handles ==> HandleOk(s', h))
    requires forall k :: k != h && k in s.handles && s.handles[k].ref == Some(r0) ==> s.handles[k].phase.Reading?
    requires forall r :: r in s.counters && r != r0 ==> r in s'.counters && s'.counters[r] == s.counters[r]
    requires forall r :: r != r0 ==> (r in s.objects <==> r in s'.objects)
    ensures HandlesOk(s')
  {
    hide HandleOk, HandlesOk, Pinned;
    OthersOk(s, s', h);
  }

  /** What deleting the object changes. */
  lemma ObjectDeleted(s: State, h: Name, r0: Id)
    requires !s.fault && Enabled(s, DeleteObject(h)) && HandleOk(s, h) && s.handles[h].ref == Some(r0)
    ensures var s' := Step(s, DeleteObject(h));
      && SameBut(s, s', h) && h in s'.handles && HandleOk(s', h)
      && s' == s.(handles := s'.handles, objects := s.objects - {r0}, deleted := s.deleted + [r0]) && r0 in s.objects
      && (forall r :: !CountedAt(s', h, r))
      && (forall r :: DeletingAt(s', h, r) <==> r == r0)
      && (forall r :: DeletingAt(s, h, r) <==> r == r0)
  {
  }

  lemma DeleteObjectSound(s: State, h: Name)
    requires Sound(s) && Enabled(s, DeleteObject(h))
    ensures Sound(Step(s, DeleteObject(h)))
  {
    assert HandleOk(s, h);
    var s', r0 := Step(s, DeleteObject(h)), s.handles[h].ref.value;
    DeletionStarts(s, h, r0);
    ObjectDeleted(s, h, r0);
    hide Step, Enabled, HandleOk, Counted, Deleting, CountedAt, DeletingAt;
    OthersUnconcerned(s, s', h, r0);
    DeletionKeepsCounters(s, s', h, r0);
    DeletersAfter(s, s', h);
  }

  /** What deleting the counter changes: the handle that did it is gone, or goes on with its assignment. */
  lemma CounterDeleted(s: State, h: Name, r0: Id)
    requires !s.fault && Enabled(s, DeleteCounter(h)) && HandleOk(s, h) && s.handles[h].ref == Some(r0)
    ensures var s' := Step(s, DeleteCounter(h));
      && SameBut(s, s', h) && (h in s'.handles ==> HandleOk(s', h))
      && s' == s.(handles := s'.handles, counters := s.counters - {r0}) && r0 !in s.objects
      && (forall r :: !CountedAt(s', h, r))
      && (forall r :: !DeletingAt(s', h, r))
  {
  }

  lemma DeleteCounterSound(s: State, h: Name)
    requires Sound(s) && Enabled(s, DeleteCounter(h))
    ensures Sound(Step(s, DeleteCounter(h)))
  {
    assert HandleOk(s, h);
    var s', r0 := Step(s, DeleteCounter(h)), s.handles[h].ref.value;
    DeletionStarts(s, h, r0);
    CounterDeleted(s, h, r0);
    hide Step, Enabled, HandleOk, Counted, Deleting, CountedAt, DeletingAt;
    OthersUnconcerned(s, s', h, r0);
    DeletionKeepsCounters(s, s', h, r0);
    DeletersAfter(s, s', h);
  }

  lemma ConstructKeepsCounters(s: State, h: Name)
    requires CountersOk(s) && Enabled(s, Construct(h))
    requires forall k :: k in s.handles && s.handles[k].ref == Some(s.next) ==> s.handles[k].phase.Reading?
    ensures CountersOk(Step(s, Construct(h)))
  {
    var s' := Step(s, Construct(h));
    forall r | r in s'.counters ensures CounterOk(s', r) {
      HoldersAfter(s, s', h, r);
      if r == s.next {
        assert Holders(s, r) == {};
      } else {
        assert CounterOk(s, r);
        if s.counters[r] == 0 {
          var k :| k in s.handles && Deleting(s.handles[k], r);
          assert DeletingAt(s', k, r);
        }
      }
    }
  }

  lemma ConstructSound(s: State, h: Name)
    requires Sound(s) && Enabled(s, Construct(h))
    ensures Sound(Step(s, Construct(h)))
  {
    var s', r0 := Step(s, Construct(h)), s.next;
    OnlyIdlePinned(s, h);
    forall k | k in s.handles && s.handles[k].ref == Some(r0) ensures s.handles[k].phase.Reading? {
      assert HandleOk(s, k);
    }
    OthersOk(s, s', h);
    DeletersAfter(s, s', h);
    ConstructKeepsCounters(s, h);
  }

  lemma StepSound(s: State, l: Label)
    requires Sound(s) && Enabled(s, l) && Disciplined(s, l)
    ensures Sound(Step(s, l))
  {
    match l
    case Construct(h) => ConstructSound(s, h);
    case Default(h) => DefaultSound(s, h);
    case Copy(h, src) => CopySound(s, h, src);
    case Add(h) => AddSound(s, h);
    case Destroy(h) => StartSound(s, l);
    case Assign(h, src) => StartSound(s, l);
    case Check(h) => CheckSound(s, h);
    case Decrement(h) => DecrementSound(s, h);
    case DeleteObject(h) => DeleteObjectSound(s, h);
    case DeleteCounter(h) => DeleteCounterSound(s, h);
    case Read(h) => ReadSound(s, h);
  }

  // ---- Every interleaving ----

  predicate Legal(s: State, ls: seq<Label>)
    decreases |ls|
  {
    ls == [] || (Enabled(s, ls[0]) && Disciplined(s, ls[0]) && Legal(Step(s, ls[0]), ls[1..]))
  }

  function Run(s: State, ls: seq<Label>): State
    requires Legal(s, ls)
    decreases |ls|
  {
    if ls == [] then s else Run(Step(s, ls[0]), ls[1..])
  }

  lemma {:induction false} RunSound(s: State, ls: seq<Label>)
    requires Sound(s) && Legal(s, ls)
    ensures Sound(Run(s, ls))
    decreases |ls|
  {
    if ls != [] {
      StepSound(s, ls[0]);
      RunSound(Step(s, ls[0]), ls[1..]);
    }
  }

  /** Reference counting is sound in every interleaving: counters count the handles that still hold
      their object; nothing is touched after its deletion; an object is deleted at most once, never
      while held, and is gone as soon as nobody holds it and no deletion is under way. */
  lemma ReferenceCountingIsSound(ls: seq<Label>)
    requires Legal(INIT, ls)
    ensures var s := Run(INIT, ls);
      && !s.fault
      && (forall r :: r in s.counters ==> s.counters[r] == |Holders(s, r)|)
      && (forall h :: IsIdle(s, h) && s.handles[h].obj.Some? ==> s.handles[h].obj.value in s.objects)
      && (forall o :: o in s.deleted ==> Holders(s, o) == {})
      && (forall i, j :: 0 <= i < j < |s.deleted| ==> s.deleted[i] != s.deleted[j])
      && (forall o :: 0 <= o < s.next && Holders(s, o) == {} && (forall h :: !DeletingAt(s, h, o)) ==> o in s.deleted)
  {
    RunSound(INIT, ls);
    var s := Run(INIT, ls);
    forall r | r in s.counters ensures s.counters[r] == |Holders(s, r)| {
      assert CounterOk(s, r);
    }
    forall h | IsIdle(s, h) && s.handles[h].obj.Some? ensures s.handles[h].obj.value in s.objects {
      assert HandleOk(s, h);
    }
    forall o | o in s.deleted ensures Holders(s, o) == {} {
      forall h ensures h !in Holders(s, o) {
        assert h in s.handles ==> HandleOk(s, h);
      }
    }
    forall o | 0 <= o < s.next && Holders(s, o) == {} && (forall h :: !DeletingAt(s, h, o)) ensures o in s.deleted {
      if o in s.objects {
        assert CounterOk(s, o);
        var h :| h in s.handles && Deleting(s.handles[h], o);
        assert DeletingAt(s, h, o);
      }
    }
  }

  lemma HeldIsAlive(s: State, w: Name)
    requires Sound(s) && IsIdle(s, w) && s.handles[w].obj.Some?
    ensures s.handles[w].obj.value in s.objects && s.handles[w].obj.value !in s.deleted
  {
    assert HandleOk(s, w);
    assert CounterOk(s, s.handles[w].ref.value);
  }

  lemma StepLeavesHandle(s: State, l: Label, w: Name)
    requires Enabled(s, l) && l.h != w && w in s.handles
    ensures w in Step(s, l).handles && Step(s, l).handles[w] == s.handles[w]
  {
  }

  /** A handle that nobody operates on keeps its object alive, whatever happens to the other handles:
      the worker's copy of a link outlives the registry's. */
  lemma {:induction false} HeldStaysAlive(s: State, ls: seq<Label>, w: Name)
    requires Sound(s) && Legal(s, ls) && IsIdle(s, w) && s.handles[w].obj.Some?
    requires forall l :: l in ls ==> l.h != w
    ensures var s' := Run(s, ls);
      && IsIdle(s', w) && s'.handles[w] == s.handles[w]
      && s.handles[w].obj.value in s'.objects && s.handles[w].obj.value !in s'.deleted
    decreases |ls|
  {
    HeldIsAlive(s, w);
    if ls != [] {
      assert ls[0] in ls;
      StepLeavesHandle(s, ls[0], w);
      StepSound(s, ls[0]);
      hide Sound, Enabled, Disciplined, Step;
      HeldStaysAlive(Step(s, ls[0]), ls[1..], w);
    }
  }

  // ---- Outside the discipline: assignment from a null handle ----

  /** The steps of `h = src`, or of a destruction, that no other thread interrupts. */
  function ReleaseAll(s: State, h: Name, t: Then): State
    requires IsIdle(s, h) && s.handles[h].ref.Some?
    requires s.handles[h].ref.value in s.counters && s.counters[s.handles[h].ref.value] > 0
  {
    var s1 := Set(s, h, s.handles[h].(phase := Checking(t)));
    var s2 := Step(s1, Check(h));
    var s3 := Step(s2, Decrement(h));
    if s.counters[s.handles[h].ref.value] == 1 then Step(Step(s3, DeleteObject(h)), DeleteCounter(h)) else s3
  }

  function AssignAll(s: State, h: Name, src: Name): State
    requires IsIdle(s, h) && IsIdle(s, src) && s.handles[h].ref.Some?
    requires s.handles[h].ref.value in s.counters && s.counters[s.handles[h].ref.value] > 0
  {
    Step(ReleaseAll(s, h, AssignFrom(src)), Read(h))
  }

  /** Assigning a null handle is sound if and only if h was the last holder: otherwise h keeps its
      stale counter pointer, as a holder too many. */
  lemma AssignFromNullExactly(s: State, h: Name, src: Name)
    requires Sound(s) && h != src && IsIdle(s, h) && IsIdle(s, src) && !Pinned(s, h)
    requires s.handles[h].ref.Some? && s.handles[src].obj.None?
    requires s.handles[h].ref.value in s.counters && s.counters[s.handles[h].ref.value] > 0
    ensures Sound(AssignAll(s, h, src)) <==> s.counters[s.handles[h].ref.value] == 1
    ensures var r := s.handles[h].ref.value; s.counters[r] > 1 ==>
      r in AssignAll(s, h, src).counters && AssignAll(s, h, src).counters[r] == |Holders(AssignAll(s, h, src), r)| - 1
  {
    if s.counters[s.handles[h].ref.value] == 1 {
      AssignNullToLast(s, h, src);
    } else {
      AssignNullToShared(s, h, src);
    }
  }

  /** `h = h`, uninterrupted: the share given up is taken back, if there still is something to share. */
  function AssignSelf(s: State, h: Name): State
    requires IsIdle(s, h) && s.handles[h].ref.Some?
    requires s.handles[h].ref.value in s.counters && s.counters[s.handles[h].ref.value] > 0
  {
    var s' := AssignAll(s, h, h);
    if Enabled(s', Add(h)) then Step(s', Add(h)) else s'
  }

  /** Self-assignment changes nothing if and only if there are other holders; the only holder deletes its
      object and is null afterwards, which still counts correctly. */
  lemma AssignSelfExactly(s: State, h: Name)
    requires Sound(s) && IsIdle(s, h) && !Pinned(s, h) && s.handles[h].ref.Some?
    requires s.handles[h].ref.value in s.counters && s.counters[s.handles[h].ref.value] > 0
    ensures Sound(AssignSelf(s, h))
    ensures AssignSelf(s, h) == s <==> s.counters[s.handles[h].ref.value] > 1
    ensures var r := s.handles[h].ref.value; s.counters[r] == 1 ==>
      && h in AssignSelf(s, h).handles && AssignSelf(s, h).handles[h] == Handle(None, None, Idle)
      && r !in AssignSelf(s, h).objects
  {
    if s.counters[s.handles[h].ref.value] > 1 {
      AssignSelfShared(s, h);
    } else {
      AssignSelfLast(s, h);
    }
    hide Sound, AssignSelf;
  }

  lemma AssignSelfShared(s: State, h: Name)
    requires Sound(s) && IsIdle(s, h) && s.handles[h].ref.Some?
    requires s.handles[h].ref.value in s.counters && s.counters[s.handles[h].ref.value] > 1
    ensures AssignSelf(s, h) == s
  {
    assert HandleOk(s, h);
    var r := s.handles[h].ref.value;
    assert s.counters[r := s.counters[r] - 1][r := s.counters[r]] == s.counters;
    assert AssignSelf(s, h).handles == s.handles;
  }

  lemma AssignSelfLast(s: State, h: Name)
    requires Sound(s) && IsIdle(s, h) && !Pinned(s, h) && s.handles[h].ref.Some?
    requires s.handles[h].ref.value in s.counters && s.counters[s.handles[h].ref.value] == 1
    ensures var s' := AssignSelf(s, h);
      && Sound(s') && h in s'.handles && s'.handles[h] == Handle(None, None, Idle)
      && s'.objects == s.objects - {s.handles[h].ref.value}
  {
    hide Sound, ReleaseAll;
    DestroyLastSound(s, h);
    var gone, again := ReleaseAll(s, h, Gone), ReleaseAll(s, h, AssignFrom(h));
    ReleaseLast(s, h, Gone);
    ReleaseLast(s, h, AssignFrom(h));
    DefaultSound(gone, h);
    assert (s.handles - {h})[h := Handle(None, None, Idle)] == s.handles[h := Handle(None, None, Idle)];
    assert again.handles[h := Handle(None, None, Idle)] == s.handles[h := Handle(None, None, Idle)];
  }

  lemma AssignNullToShared(s: State, h: Name, src: Name)
    requires Sound(s) && h != src && IsIdle(s, h) && IsIdle(s, src)
    requires s.handles[h].ref.Some? && s.handles[src].obj.None?
    requires s.handles[h].ref.value in s.counters && s.counters[s.handles[h].ref.value] > 1
    ensures var s', r := AssignAll(s, h, src), s.handles[h].ref.value;
      !Sound(s') && r in s'.counters && s'.counters[r] == |Holders(s', r)| - 1
  {
    var s', r := AssignAll(s, h, src), s.handles[h].ref.value;
    assert s'.handles == s.handles[h := Handle(None, Some(r), Idle)];
    assert CounterOk(s, r);
    assert !HandleOk(s', h);
    HoldersAfter(s, s', h, r);
  }

  lemma AssignNullToLast(s: State, h: Name, src: Name)
    requires Sound(s) && h != src && IsIdle(s, h) && IsIdle(s, src) && !Pinned(s, h)
    requires s.handles[h].ref.Some? && s.handles[src].obj.None?
    requires s.handles[h].ref.value in s.counters && s.counters[s.handles[h].ref.value] == 1
    ensures Sound(AssignAll(s, h, src))
  {
    hide Sound, ReleaseAll;
    DestroyLastSound(s, h);
    var gone, again := ReleaseAll(s, h, Gone), ReleaseAll(s, h, AssignFrom(src));
    ReleaseLast(s, h, Gone);
    ReleaseLast(s, h, AssignFrom(src));
    DefaultSound(gone, h);
    assert (s.handles - {h})[h := Handle(None, None, Idle)] == s.handles[h := Handle(None, None, Idle)];
    assert again.handles[h := Handle(None, None, Idle)] == s.handles[h := Handle(None, None, Idle)];
  }

  /** What a release by the last holder does. */
  lemma ReleaseLast(s: State, h: Name, t: Then)
    requires Sound(s) && IsIdle(s, h) && s.handles[h].ref.Some?
    requires s.handles[h].ref.value in s.counters && s.counters[s.handles[h].ref.value] == 1
    ensures var r := s.handles[h].ref.value;
      ReleaseAll(s, h, t) == s.(counters := s.counters - {r}, objects := s.objects - {r}, deleted := s.deleted + [r],
        handles := if t.Gone? then s.handles - {h} else s.handles[h := Handle(None, None, Reading(t.src))])
  {
    assert HandleOk(s, h);
    var r := s.handles[h].ref.value;
    CountedDown(s, h, t);
    assert s.counters[r := 0] - {r} == s.counters - {r};
    hide Sound, HandleOk;
  }

  /** The check and the decrement of that release. */
  lemma CountedDown(s: State, h: Name, t: Then)
    requires IsIdle(s, h) && s.handles[h].ref.Some?
    requires s.handles[h].ref.value in s.counters && s.counters[s.handles[h].ref.value] == 1
    ensures var s1 := Set(s, h, s.handles[h].(phase := Checking(t)));
      Step(Step(s1, Check(h)), Decrement(h))
      == s.(handles := s.handles[h := s.handles[h].(phase := DeletingObject(t))],
            counters := s.counters[s.handles[h].ref.value := 0])
  {
  }

  lemma DestroyLastSound(s: State, h: Name)
    requires Sound(s) && IsIdle(s, h) && !Pinned(s, h) && s.handles[h].ref.Some?
    requires s.handles[h].ref.value in s.counters && s.counters[s.handles[h].ref.value] == 1
    ensures Sound(ReleaseAll(s, h, Gone)) && h !in ReleaseAll(s, h, Gone).handles
  {
    hide Sound;
    StepSound(s, Destroy(h));
    var s1 := Step(s, Destroy(h));
    CheckSound(s1, h);
    var s2 := Step(s1, Check(h));
    DecrementSound(s2, h);
    var s3 := Step(s2, Decrement(h));
    DeleteObjectSound(s3, h);
    DeleteCounterSound(Step(s3, DeleteObject(h)), h);
  }
}
