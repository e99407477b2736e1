/**
 Assignments that the discipline of RefCounting leaves out, from a null handle or from the handle itself,
 while all other threads go on. One such assignment is started; every later step keeps to the discipline.
 The proofs follow a second run in which the handle is destroyed instead of assigned.
 */
module RefCountAssign {
  import opened RefCounting

  // ---- Two states that differ in one handle ----

  predicate SameShared(x: State, y: State) {
    && x.counters == y.counters && x.objects == y.objects
    && x.deleted == y.deleted && x.next == y.next && x.fault == y.fault
  }

  ghost predicate Twin(x: State, y: State, h: Name) {
    SameShared(x, y) && SameBut(x, y, h)
  }

  ghost predicate Unmoved(s: State, s': State, h: Name) {
    && (h in s.handles <==> h in s'.handles)
    && (h in s.handles ==> s'.handles[h] == s.handles[h])
  }

  /** The handle a step looks at besides its own. */
  function LooksAt(s: State, l: Label): Option<Name>
    requires Enabled(s, l)
  {
    match l
    case Copy(_, src) => Some(src)
    case Assign(_, src) => Some(src)
    case Read(h) => Some(s.handles[h].phase.src)
    case _ => None
  }

  predicate Pins(s: State, h: Name, k: Name) {
    h in s.handles && Source(s.handles[h].phase) == Some(k)
  }

  lemma SameEnabled(x: State, y: State, h: Name, l: Label)
    requires Twin(x, y, h) && Enabled(x, l) && Disciplined(x, l)
    requires l.h != h && LooksAt(x, l) != Some(h) && !Pins(y, h, l.h)
    ensures Enabled(y, l) && Disciplined(y, l)
  {
  }

  lemma OthersLeave(s: State, l: Label)
    requires Enabled(s, l)
    ensures SameBut(s, Step(s, l), l.h)
  {
  }

  /** The two states agree in all that a step of l depends on. */
  ghost predicate SameView(x: State, y: State, l: Label) {
    && Enabled(x, l) && Enabled(y, l) && SameShared(x, y) && Unmoved(x, y, l.h)
    && (LooksAt(x, l).Some? ==> Unmoved(x, y, LooksAt(x, l).value))
  }

  lemma SameCheck(x: State, y: State, l: Label)
    requires SameView(x, y, l) && l.Check?
    ensures SameShared(Step(x, l), Step(y, l)) && Unmoved(Step(x, l), Step(y, l), l.h)
  {
  }

  lemma SameDecrement(x: State, y: State, l: Label)
    requires SameView(x, y, l) && l.Decrement?
    ensures SameShared(Step(x, l), Step(y, l)) && Unmoved(Step(x, l), Step(y, l), l.h)
  {
  }

  lemma SameOther(x: State, y: State, l: Label)
    requires SameView(x, y, l) && !l.Check? && !l.Decrement?
    ensures SameShared(Step(x, l), Step(y, l)) && Unmoved(Step(x, l), Step(y, l), l.h)
  {
  }

  lemma SameEffect(x: State, y: State, l: Label)
    requires SameView(x, y, l)
    ensures SameShared(Step(x, l), Step(y, l)) && Unmoved(Step(x, l), Step(y, l), l.h)
  {
    hide Step, SameView, SameShared, Unmoved;
    if l.Check? {
      SameCheck(x, y, l);
    } else if l.Decrement? {
      SameDecrement(x, y, l);
    } else {
      SameOther(x, y, l);
    }
  }

  lemma TwinsView(x: State, y: State, h: Name, l: Label)
    requires Twin(x, y, h) && Enabled(x, l) && Enabled(y, l) && l.h != h && LooksAt(x, l) != Some(h)
    ensures SameView(x, y, l)
  {
    hide SameShared;
  }

  lemma TwinsMove(x: State, y: State, x': State, y': State, h: Name, k: Name)
    requires SameBut(x, y, h) && SameBut(x, x', k) && SameBut(y, y', k) && Unmoved(x', y', k) && k != h
    ensures SameBut(x', y', h) && Unmoved(x, x', h) && Unmoved(y, y', h)
  {
  }

  /** A step of another handle that does not look at h does the same in both states. */
  lemma SameStep(x: State, y: State, h: Name, l: Label)
    requires Twin(x, y, h) && Enabled(x, l) && Enabled(y, l)
    requires l.h != h && LooksAt(x, l) != Some(h)
    ensures Twin(Step(x, l), Step(y, l), h)
    ensures Unmoved(x, Step(x, l), h) && Unmoved(y, Step(y, l), h)
  {
    hide Step, Enabled, LooksAt, SameShared, SameView, SameBut, Unmoved;
    OthersLeave(x, l);
    OthersLeave(y, l);
    TwinsView(x, y, h, l);
    SameEffect(x, y, l);
    TwinsMove(x, y, Step(x, l), Step(y, l), h, l.h);
  }

  // ---- The second run ----

  /** The handle is being destroyed instead, is gone already while it reads, or is being copied from w. */
  function Instead(v: Handle, w: Name): Option<Handle> {
    match v.phase
    case Checking(_) => Some(v.(phase := Checking(Gone)))
    case Decrementing(_) => Some(v.(phase := Decrementing(Gone)))
    case DeletingObject(_) => Some(v.(phase := DeletingObject(Gone)))
    case DeletingCounter(_) => Some(v.(phase := DeletingCounter(Gone)))
    case Adding(_) => Some(v.(phase := Adding(w)))
    case _ => None
  }

  function Shadow(s: State, h: Name, w: Name): State
    requires h in s.handles
  {
    var v := Instead(s.handles[h], w);
    if v.Some? then Set(s, h, v.value) else s.(handles := s.handles - {h})
  }

  /** h is in the middle of an assignment from src. */
  ghost predicate Assigning(s: State, h: Name, src: Name, w: Name) {
    Pins(s, h, src) && Sound(Shadow(s, h, w))
  }

  lemma Starts(s: State, h: Name, src: Name, w: Name)
    requires Sound(s) && IsIdle(s, h) && IsIdle(s, src) && !Pinned(s, h)
    ensures var s1 := Step(s, Assign(h, src));
      Assigning(s1, h, src, w) && s1.handles[h].phase == Checking(AssignFrom(src))
  {
    StepSound(s, Destroy(h));
    assert Step(s, Destroy(h)).handles == Shadow(Step(s, Assign(h, src)), h, w).handles;
  }

  lemma ShadowIsTwin(s: State, h: Name, w: Name)
    requires h in s.handles
    ensures Twin(s, Shadow(s, h, w), h)
  {
  }

  lemma ShadowMoves(s: State, s': State, a': State, h: Name, w: Name)
    requires h in s.handles && Unmoved(s, s', h) && Unmoved(Shadow(s, h, w), a', h) && Twin(s', a', h)
    ensures a' == Shadow(s', h, w)
  {
    hide Instead;
    assert a'.handles == Shadow(s', h, w).handles;
  }

  /** A step of another handle is a step of both runs. */
  lemma OtherStep(s: State, l: Label, h: Name, src: Name, w: Name)
    requires Assigning(s, h, src, w) && Enabled(s, l) && Disciplined(s, l) && l.h != h
    requires s.handles[h].phase.Adding? ==> l.h != w
    ensures Unmoved(s, Step(s, l), h) && Assigning(Step(s, l), h, src, w)
    ensures var a := Shadow(s, h, w); Enabled(a, l) && Disciplined(a, l) && Step(a, l) == Shadow(Step(s, l), h, w)
  {
    var a := Shadow(s, h, w);
    assert !Pins(a, h, l.h);
    hide Step, Enabled, Disciplined, Sound, Shadow;
    OtherLooksElsewhere(s, l, h, w);
    ShadowIsTwin(s, h, w);
    SameEnabled(s, a, h, l);
    SameStep(s, a, h, l);
    ShadowMoves(s, Step(s, l), Step(a, l), h, w);
    StepSound(a, l);
  }

  lemma OtherLooksElsewhere(s: State, l: Label, h: Name, w: Name)
    requires h in s.handles && !IsIdle(s, h) && Sound(Shadow(s, h, w)) && Enabled(s, l) && l.h != h
    ensures LooksAt(s, l) != Some(h)
  {
    if l.Read? {
      assert HandleOk(Shadow(s, h, w), l.h);
    }
  }

  /** The step is one of the second run too. */
  ghost predicate Alike(s: State, l: Label, h: Name, src: Name, w: Name)
    requires Pins(s, h, src) && Enabled(s, l)
  {
    var a := Shadow(s, h, w);
    Enabled(a, l) && Pins(Step(s, l), h, src) && Step(a, l) == Shadow(Step(s, l), h, w)
  }

  lemma CheckAlike(s: State, h: Name, src: Name, w: Name)
    requires Pins(s, h, src) && Enabled(s, Check(h)) && HandleOk(Shadow(s, h, w), h)
    ensures Alike(s, Check(h), h, src, w)
  {
    var a, l := Shadow(s, h, w), Check(h);
    assert Step(a, l).handles == Shadow(Step(s, l), h, w).handles;
  }

  lemma DecrementAlike(s: State, h: Name, src: Name, w: Name)
    requires Pins(s, h, src) && Enabled(s, Decrement(h)) && HandleOk(Shadow(s, h, w), h)
    ensures Alike(s, Decrement(h), h, src, w)
  {
    var a, l := Shadow(s, h, w), Decrement(h);
    assert Step(a, l).handles == Shadow(Step(s, l), h, w).handles;
  }

  lemma DeleteObjectAlike(s: State, h: Name, src: Name, w: Name)
    requires Pins(s, h, src) && Enabled(s, DeleteObject(h)) && HandleOk(Shadow(s, h, w), h)
    ensures Alike(s, DeleteObject(h), h, src, w)
  {
    var a, l := Shadow(s, h, w), DeleteObject(h);
    assert Step(a, l).handles == Shadow(Step(s, l), h, w).handles;
  }

  lemma DeleteCounterAlike(s: State, h: Name, src: Name, w: Name)
    requires Pins(s, h, src) && Enabled(s, DeleteCounter(h)) && HandleOk(Shadow(s, h, w), h)
    ensures Alike(s, DeleteCounter(h), h, src, w)
  {
    var a, l := Shadow(s, h, w), DeleteCounter(h);
    assert Step(a, l).handles == Shadow(Step(s, l), h, w).handles;
  }

  /** A step of the release itself is one too. */
  lemma ReleaseStep(s: State, l: Label, h: Name, src: Name, w: Name)
    requires Assigning(s, h, src, w) && Enabled(s, l) && l.h == h && !l.Read? && !l.Add?
    ensures Assigning(Step(s, l), h, src, w) && Alike(s, l, h, src, w)
  {
    var a := Shadow(s, h, w);
    assert HandleOk(a, h);
    hide Sound, Shadow, Step, HandleOk;
    match l {
      case Check(_) => CheckAlike(s, h, src, w);
      case Decrement(_) => DecrementAlike(s, h, src, w);
      case DeleteObject(_) => DeleteObjectAlike(s, h, src, w);
      case DeleteCounter(_) => DeleteCounterAlike(s, h, src, w);
    }
    StepSound(a, l);
  }

  // ---- The only holder ----

  /** h holds nothing, or nobody else holds its object. */
  predicate OnlyHolder(s: State, h: Name)
    requires h in s.handles
  {
    s.handles[h].ref.Some? ==> s.handles[h].ref.value in s.counters && s.counters[s.handles[h].ref.value] == 1
  }

  /** Assigning src to h reads fields that are null, or h's own. */
  predicate Hollow(s: State, h: Name, src: Name) {
    src == h || (IsIdle(s, src) && s.handles[src].obj.None?)
  }

  /** The fields of the only holder on its way through the release. */
  ghost predicate SoleFields(s: State, h: Name)
    requires h in s.handles
  {
    var v := s.handles[h];
    && !v.phase.Adding?
    && (v.phase.Checking? || v.phase.Decrementing? ==> OnlyHolder(s, h))
    && (v.phase.Reading? ==> v.obj.None? && v.ref.None?)
  }

  ghost predicate Sole(s: State, h: Name, src: Name) {
    Assigning(s, h, src, h) && Hollow(s, h, src) && SoleFields(s, h)
  }

  /** A handle gains a share only from another handle that holds the object and is idle. */
  lemma SharesComeFromHolders(a: State, l: Label, r: Id)
    requires Sound(a) && Enabled(a, l) && r in a.counters
    requires CountedAt(Step(a, l), l.h, r) && !CountedAt(a, l.h, r)
    ensures exists k :: k != l.h && IsIdle(a, k) && k in Holders(a, r)
  {
    if l.h in a.handles {
      assert HandleOk(a, l.h);
      assert l.Add? || l.Read?;
      assert IsIdle(a, a.handles[l.h].phase.src) && a.handles[l.h].phase.src in Holders(a, r);
    }
  }

  lemma OnlyHolderStays(a: State, l: Label, h: Name)
    requires Sound(a) && Enabled(a, l) && Disciplined(a, l) && l.h != h && h in a.handles
    requires (a.handles[h].phase.Checking? || a.handles[h].phase.Decrementing?) && OnlyHolder(a, h)
    ensures OnlyHolder(Step(a, l), h)
  {
    var a' := Step(a, l);
    StepSound(a, l);
    OthersLeave(a, l);
    if a.handles[h].ref.Some? {
      var r := a.handles[h].ref.value;
      NobodyJoins(a, l, h, r);
      hide Step, Enabled, Disciplined;
      assert HandleOk(a', h) && CounterOk(a', r) && CounterOk(a, r);
      hide Sound, HandleOk;
      HoldersAfter(a, a', l.h, r);
      assert CountedAt(a', h, r);
      assert h in Holders(a', r);
    }
  }

  lemma NobodyJoins(a: State, l: Label, h: Name, r: Id)
    requires Sound(a) && Enabled(a, l) && l.h != h && !IsIdle(a, h)
    requires CountedAt(a, h, r) && r in a.counters && a.counters[r] == 1
    ensures !CountedAt(a, l.h, r) && !CountedAt(Step(a, l), l.h, r)
  {
    assert CounterOk(a, r);
    hide Sound, Step, Enabled;
    assert h in Holders(a, r);
    OnlyOne(Holders(a, r), h);
    assert CountedAt(a, l.h, r) ==> l.h in Holders(a, r);
    if CountedAt(Step(a, l), l.h, r) {
      SharesComeFromHolders(a, l, r);
    }
  }

  lemma OnlyOne(hs: set<Name>, h: Name)
    requires h in hs && |hs| == 1
    ensures hs == {h}
  {
    assert |hs - {h}| == 0;
  }

  /** The source of an assignment is not operated on meanwhile. */
  lemma SourceStays(s: State, l: Label, h: Name, src: Name)
    requires Pins(s, h, src) && IsIdle(s, src) && l.h != h && Enabled(s, l) && Disciplined(s, l)
    ensures IsIdle(Step(s, l), src) && Step(s, l).handles[src] == s.handles[src]
  {
    assert Pinned(s, src);
    hide Step;
    OthersLeave(s, l);
  }

  lemma SoleOther(s: State, l: Label, h: Name, src: Name)
    requires Sole(s, h, src) && Enabled(s, l) && Disciplined(s, l) && l.h != h
    ensures Sole(Step(s, l), h, src)
  {
    hide Step, Enabled, Disciplined, Sound;
    OtherStep(s, l, h, src, h);
    if src != h {
      SourceStays(s, l, h, src);
    }
    if s.handles[h].phase.Checking? || s.handles[h].phase.Decrementing? {
      OnlyHolderStays(Shadow(s, h, h), l, h);
    }
  }

  lemma SoleFieldsKept(s: State, l: Label, h: Name, src: Name)
    requires Pins(s, h, src) && SoleFields(s, h) && Enabled(s, l) && l.h == h && !l.Read?
    requires HandleOk(Shadow(s, h, h), h)
    ensures h in Step(s, l).handles && SoleFields(Step(s, l), h)
    ensures src != h && src in s.handles ==> src in Step(s, l).handles && Step(s, l).handles[src] == s.handles[src]
  {
  }

  lemma SoleOwn(s: State, l: Label, h: Name, src: Name)
    requires Sole(s, h, src) && Enabled(s, l) && l.h == h && !l.Read?
    ensures Sole(Step(s, l), h, src)
  {
    assert HandleOk(Shadow(s, h, h), h) && !l.Add?;
    hide Sound, Step, Enabled, SoleFields, Shadow, HandleOk;
    ReleaseStep(s, l, h, src, h);
    SoleFieldsKept(s, l, h, src);
  }

  lemma SoleRead(s: State, h: Name, src: Name)
    requires Sole(s, h, src) && Enabled(s, Read(h))
    ensures Sound(Step(s, Read(h))) && Step(s, Read(h)).handles[h] == Handle(None, None, Idle)
  {
    var a := Shadow(s, h, h);
    assert Step(s, Read(h)).handles == Step(a, Default(h)).handles;
    DefaultSound(a, h);
  }

  /** What is promised in the middle of such an assignment as well. */
  ghost predicate CountsRight(s: State) {
    !s.fault && forall r :: r in s.counters ==> s.counters[r] == |Holders(s, r)|
  }

  lemma SoundCountsRight(s: State)
    requires Sound(s)
    ensures CountsRight(s)
  {
    forall r | r in s.counters ensures s.counters[r] == |Holders(s, r)| {
      assert CounterOk(s, r);
    }
  }

  lemma AssigningCountsRight(s: State, h: Name, src: Name, w: Name)
    requires Assigning(s, h, src, w)
    ensures CountsRight(s)
  {
    var a := Shadow(s, h, w);
    SoundCountsRight(a);
    hide Sound;
    forall r | r in s.counters ensures s.counters[r] == |Holders(s, r)| {
      assert Holders(s, r) == Holders(a, r);
    }
  }

  /** No further operation is started on h. */
  predicate NoneStarted(ls: seq<Label>, h: Name) {
    forall l :: l in ls && l.h == h ==> !l.Destroy? && !l.Assign?
  }

  lemma {:induction false} IdleStays(s: State, ls: seq<Label>, h: Name)
    requires IsIdle(s, h) && Legal(s, ls) && NoneStarted(ls, h)
    ensures IsIdle(Run(s, ls), h) && Run(s, ls).handles[h] == s.handles[h]
    decreases |ls|
  {
    if ls != [] {
      assert ls[0] in ls;
      OthersLeave(s, ls[0]);
      assert ls[0].h != h;
      hide Step, Enabled, Disciplined;
      IdleStays(Step(s, ls[0]), ls[1..], h);
    }
  }

  /** What holds of h in s' when its assignment is over: the state is in order, and h has the fields v. */
  ghost predicate OverWith(s': State, ls: seq<Label>, h: Name, v: Handle) {
    IsIdle(s', h) ==> Sound(s') && (NoneStarted(ls, h) ==> s'.handles[h] == v)
  }

  lemma AfterEnd(s: State, ls: seq<Label>, h: Name)
    requires Sound(s) && IsIdle(s, h) && Legal(s, ls)
    ensures CountsRight(Run(s, ls)) && OverWith(Run(s, ls), ls, h, s.handles[h])
  {
    hide Sound;
    RunSound(s, ls);
    SoundCountsRight(Run(s, ls));
    if NoneStarted(ls, h) {
      IdleStays(s, ls, h);
    }
  }

  lemma {:induction false} SoleRun(s: State, ls: seq<Label>, h: Name, src: Name)
    requires Sole(s, h, src) && Legal(s, ls)
    ensures CountsRight(Run(s, ls)) && OverWith(Run(s, ls), ls, h, Handle(None, None, Idle))
    decreases |ls|
  {
    if ls == [] {
      AssigningCountsRight(s, h, src, h);
    } else {
      var l, s' := ls[0], Step(s, ls[0]);
      if l == Read(h) {
        SoleRead(s, h, src);
        hide Sole, Step, Enabled, Disciplined;
        AfterEnd(s', ls[1..], h);
      } else if l.h == h {
        SoleOwn(s, l, h, src);
        hide Sole, Step, Enabled, Disciplined;
        SoleRun(s', ls[1..], h, src);
      } else {
        SoleOther(s, l, h, src);
        hide Sole, Step, Enabled, Disciplined;
        SoleRun(s', ls[1..], h, src);
      }
    }
  }

  /** Assigning a null handle, or a handle itself, to the only holder of an object, or to a null handle, goes
      well in every interleaving, and leaves a null handle. */
  lemma OnlyHolderIsSafe(s: State, h: Name, src: Name, ls: seq<Label>)
    requires Sound(s) && IsIdle(s, h) && IsIdle(s, src) && !Pinned(s, h)
    requires Hollow(s, h, src) && OnlyHolder(s, h) && Legal(Step(s, Assign(h, src)), ls)
    ensures var s' := Run(Step(s, Assign(h, src)), ls);
      CountsRight(s') && OverWith(s', ls, h, Handle(None, None, Idle))
  {
    Starts(s, h, src, h);
    SoleRun(Step(s, Assign(h, src)), ls, h, src);
  }

  // ---- Another holder that nobody operates on ----

  /** h, which holds r, is being assigned to itself while w holds r too. */
  ghost predicate Beside(s: State, h: Name, w: Name, r: Id) {
    && Assigning(s, h, h, w) && w != h && IsIdle(s, w) && s.handles[w].ref == Some(r)
    && var v := s.handles[h];
    && v.obj == Some(r) && v.ref == Some(r)
    && (v.phase.Checking? || v.phase.Decrementing? || v.phase.Reading? || v.phase.Adding?)
  }

  lemma WitnessCounts(s: State, h: Name, w: Name, r: Id)
    requires Beside(s, h, w, r)
    ensures s.handles[w] == Handle(Some(r), Some(r), Idle)
    ensures r in s.counters && s.counters[r] > 0 && (s.handles[h].phase.Decrementing? ==> s.counters[r] > 1)
  {
    var a := Shadow(s, h, w);
    assert HandleOk(a, w) && CounterOk(a, r);
    hide Sound;
    assert w in Holders(a, r);
    if s.handles[h].phase.Decrementing? {
      assert {h, w} <= Holders(a, r);
      AtLeastTwo(Holders(a, r), h, w);
    }
  }

  lemma AtLeastTwo(hs: set<Name>, h: Name, w: Name)
    requires h != w && {h, w} <= hs
    ensures |hs| > 1
  {
    assert |hs - {h}| > 0;
  }

  lemma BesideOther(s: State, l: Label, h: Name, w: Name, r: Id)
    requires Beside(s, h, w, r) && Enabled(s, l) && Disciplined(s, l) && l.h != h && l.h != w
    ensures Beside(Step(s, l), h, w, r)
  {
    hide Step, Enabled, Disciplined, Sound, Shadow;
    OtherStep(s, l, h, h, w);
    OthersLeave(s, l);
  }

  lemma BesideRead(s: State, h: Name, w: Name, r: Id)
    requires Beside(s, h, w, r) && Enabled(s, Read(h))
    ensures Beside(Step(s, Read(h)), h, w, r)
  {
    var a, s' := Shadow(s, h, w), Step(s, Read(h));
    WitnessCounts(s, h, w, r);
    CopySound(a, h, w);
    hide Sound;
    assert Step(a, Copy(h, w)).handles == Shadow(s', h, w).handles;
  }

  lemma BesideFields(s: State, l: Label, h: Name, w: Name, r: Id)
    requires Beside(s, h, w, r) && (l == Check(h) || l == Decrement(h)) && Enabled(s, l)
    requires r in s.counters && s.counters[r] > 0 && (l.Decrement? ==> s.counters[r] > 1)
    ensures var s' := Step(s, l);
      && h in s'.handles && (s'.handles[h].phase.Decrementing? || s'.handles[h].phase.Reading?)
      && s'.handles[h].obj == Some(r) && s'.handles[h].ref == Some(r)
  {
  }

  lemma BesideOwn(s: State, l: Label, h: Name, w: Name, r: Id)
    requires Beside(s, h, w, r) && Enabled(s, l) && l.h == h && !l.Add?
    ensures Beside(Step(s, l), h, w, r)
  {
    if l.Read? {
      BesideRead(s, h, w, r);
    } else {
      WitnessCounts(s, h, w, r);
      BesideFields(s, l, h, w, r);
      OthersLeave(s, l);
      hide Step, Sound;
      ReleaseStep(s, l, h, h, w);
    }
  }

  lemma BesideAdd(s: State, h: Name, w: Name, r: Id)
    requires Beside(s, h, w, r) && Enabled(s, Add(h))
    ensures Sound(Step(s, Add(h))) && Step(s, Add(h)).handles[h] == Handle(Some(r), Some(r), Idle)
  {
    var a := Shadow(s, h, w);
    AddSound(a, h);
    hide Sound;
    WitnessCounts(s, h, w, r);
    assert Step(s, Add(h)).handles == Step(a, Add(h)).handles;
  }

  lemma {:induction false} BesideRun(s: State, ls: seq<Label>, h: Name, w: Name, r: Id)
    requires Beside(s, h, w, r) && Legal(s, ls)
    requires forall l :: l in ls ==> l.h != w
    ensures CountsRight(Run(s, ls)) && OverWith(Run(s, ls), ls, h, Handle(Some(r), Some(r), Idle))
    decreases |ls|
  {
    if ls == [] {
      AssigningCountsRight(s, h, h, w);
    } else {
      var l, s' := ls[0], Step(s, ls[0]);
      assert l in ls;
      if l == Add(h) {
        BesideAdd(s, h, w, r);
        hide Beside, Step, Enabled, Disciplined;
        AfterEnd(s', ls[1..], h);
      } else if l.h == h {
        BesideOwn(s, l, h, w, r);
        hide Beside, Step, Enabled, Disciplined;
        BesideRun(s', ls[1..], h, w, r);
      } else {
        BesideOther(s, l, h, w, r);
        hide Beside, Step, Enabled, Disciplined;
        BesideRun(s', ls[1..], h, w, r);
      }
    }
  }

  /** Assigning a handle to itself goes well in every interleaving, and changes nothing, while some other
      handle that nobody operates on holds its object. */
  lemma KeptHolderIsSafe(s: State, h: Name, w: Name, ls: seq<Label>)
    requires Sound(s) && IsIdle(s, h) && !Pinned(s, h) && s.handles[h].obj.Some?
    requires w != h && IsIdle(s, w) && s.handles[w].obj == s.handles[h].obj
    requires Legal(Step(s, Assign(h, h)), ls) && forall l :: l in ls ==> l.h != w
    ensures var s' := Run(Step(s, Assign(h, h)), ls); CountsRight(s') && OverWith(s', ls, h, s.handles[h])
  {
    Starts(s, h, h, w);
    assert HandleOk(s, h) && HandleOk(s, w);
    BesideRun(Step(s, Assign(h, h)), ls, h, w, s.handles[h].obj.value);
  }

  // ---- Assignments and copies within the discipline ----

  /** h is being given the fields v of src, by a copy or an assignment. */
  ghost predicate Fetching(s: State, h: Name, src: Name, v: Handle) {
    && Sound(s) && Pins(s, h, src) && src != h && IsIdle(s, src) && s.handles[src] == v
    && (s.handles[h].phase.Adding? ==> s.handles[h].obj == v.obj && s.handles[h].ref == v.ref)
  }

  lemma FetchingOther(s: State, l: Label, h: Name, src: Name, v: Handle)
    requires Fetching(s, h, src, v) && Enabled(s, l) && Disciplined(s, l) && l.h != h
    ensures Fetching(Step(s, l), h, src, v)
  {
    SourceStays(s, l, h, src);
    StepSound(s, l);
    hide Step, Enabled, Disciplined, Sound;
    OthersLeave(s, l);
  }

  lemma FetchingOwn(s: State, l: Label, h: Name, src: Name, v: Handle)
    requires Fetching(s, h, src, v) && Enabled(s, l) && l.h == h
    ensures Sound(Step(s, l))
    ensures if l.Add? then h in Step(s, l).handles && Step(s, l).handles[h] == v else Fetching(Step(s, l), h, src, v)
  {
    assert HandleOk(s, h);
    FetchingStep(s, l, h, src, v);
    hide Step, Enabled;
    StepSound(s, l);
  }

  lemma FetchingStep(s: State, l: Label, h: Name, src: Name, v: Handle)
    requires Pins(s, h, src) && src != h && IsIdle(s, src) && s.handles[src] == v && Enabled(s, l) && l.h == h
    requires s.handles[h].phase.Adding? ==> s.handles[h].obj == v.obj && s.handles[h].ref == v.ref
    requires HandleOk(s, h)
    ensures Disciplined(s, l)
    ensures var s' := Step(s, l);
      && h in s'.handles && src in s'.handles && s'.handles[src] == v
      && if l.Add? then s'.handles[h] == v
         else
           && Pins(s', h, src)
           && (s'.handles[h].phase.Adding? ==> s'.handles[h].obj == v.obj && s'.handles[h].ref == v.ref)
  {
  }

  lemma {:induction false} FetchingRun(s: State, ls: seq<Label>, h: Name, src: Name, v: Handle)
    requires Fetching(s, h, src, v) && Legal(s, ls)
    ensures OverWith(Run(s, ls), ls, h, v)
    decreases |ls|
  {
    if ls != [] {
      var l, s' := ls[0], Step(s, ls[0]);
      if l.h != h {
        FetchingOther(s, l, h, src, v);
        hide Fetching, Step, Enabled, Disciplined;
        FetchingRun(s', ls[1..], h, src, v);
      } else {
        FetchingOwn(s, l, h, src, v);
        if l.Add? {
          hide Sound, Step, Enabled, Disciplined;
          AfterEnd(s', ls[1..], h);
        } else {
          hide Fetching, Step, Enabled, Disciplined;
          FetchingRun(s', ls[1..], h, src, v);
        }
      }
    }
  }

  /** In every interleaving, an assignment from another handle that holds an object ends with that handle's
      fields. */
  lemma AssignmentTakesFields(s: State, h: Name, src: Name, ls: seq<Label>)
    requires Sound(s) && IsIdle(s, h) && IsIdle(s, src) && Disciplined(s, Assign(h, src))
    requires Legal(Step(s, Assign(h, src)), ls)
    ensures OverWith(Run(Step(s, Assign(h, src)), ls), ls, h, s.handles[src])
  {
    StepSound(s, Assign(h, src));
    FetchingRun(Step(s, Assign(h, src)), ls, h, src, s.handles[src]);
  }

  /** So does a copy, also of a null handle. */
  lemma CopyTakesFields(s: State, h: Name, src: Name, ls: seq<Label>)
    requires Sound(s) && h !in s.handles && IsIdle(s, src) && Legal(Step(s, Copy(h, src)), ls)
    ensures OverWith(Run(Step(s, Copy(h, src)), ls), ls, h, s.handles[src])
  {
    var s' := Step(s, Copy(h, src));
    StepSound(s, Copy(h, src));
    if s.handles[src].ref.Some? {
      FetchingRun(s', ls, h, src, s.handles[src]);
    } else {
      AfterEnd(s', ls, h);
    }
  }

  // ---- Other holders that may go ----

  lemma {:induction false} Concat(s: State, xs: seq<Label>, ys: seq<Label>)
    requires Legal(s, xs) && Legal(Run(s, xs), ys)
    ensures Legal(s, xs + ys) && Run(s, xs + ys) == Run(Run(s, xs), ys)
    decreases |xs|
  {
    if xs == [] {
      assert xs + ys == ys;
    } else {
      assert (xs + ys)[1..] == xs[1..] + ys;
      Concat(Step(s, xs[0]), xs[1..], ys);
    }
  }

  lemma Append(s: State, ls: seq<Label>, l: Label)
    requires Legal(s, ls) && Enabled(Run(s, ls), l) && Disciplined(Run(s, ls), l)
    ensures Legal(s, ls + [l]) && Run(s, ls + [l]) == Step(Run(s, ls), l)
  {
    var s' := Run(s, ls);
    hide Enabled, Disciplined, Step;
    assert Legal(s', [l]) && Run(s', [l]) == Step(s', l);
    Concat(s, ls, [l]);
  }

  /** How many steps a handle's operation has before it, at most. */
  function Remaining(p: Phase): nat {
    match p
    case Idle => 0
    case Adding(_) => 1
    case Reading(_) => 2
    case DeletingCounter(_) => 3
    case DeletingObject(_) => 4
    case Decrementing(_) => 5
    case Checking(_) => 6
  }

  function NextLabel(k: Name, p: Phase): Label
    requires p != Idle
  {
    match p
    case Adding(_) => Add(k)
    case Reading(_) => Read(k)
    case DeletingCounter(_) => DeleteCounter(k)
    case DeletingObject(_) => DeleteObject(k)
    case Decrementing(_) => Decrement(k)
    case Checking(_) => Check(k)
  }

  lemma NextAdvances(a: State, k: Name)
    requires Sound(a) && k in a.handles && !IsIdle(a, k)
    ensures var l, p := NextLabel(k, a.handles[k].phase), a.handles[k].phase;
      && l.h == k && Enabled(a, l) && Disciplined(a, l)
      && (k in Step(a, l).handles ==>
            var p' := Step(a, l).handles[k].phase;
            Remaining(p') < Remaining(p) && (Source(p).None? ==> Source(p').None? && p' != Idle))
  {
    assert HandleOk(a, k);
    hide Sound;
  }

  /** The labels are all k's, and nothing else moves. */
  ghost predicate Alone(a: State, ls: seq<Label>, k: Name)
    requires Legal(a, ls)
  {
    (forall l :: l in ls ==> l.h == k) && SameBut(a, Run(a, ls), k) && Sound(Run(a, ls))
  }

  lemma AloneFirst(a: State, l: Label, rest: seq<Label>, k: Name)
    requires Enabled(a, l) && Disciplined(a, l) && Legal(Step(a, l), rest)
    requires l.h == k && Alone(Step(a, l), rest, k)
    ensures Legal(a, [l] + rest) && Alone(a, [l] + rest, k) && Run(a, [l] + rest) == Run(Step(a, l), rest)
  {
    OthersLeave(a, l);
    hide Enabled, Disciplined, Step, Sound;
    Prepend(a, l, rest);
  }

  /** An operation can be finished while no other handle moves. A destroyed handle is gone then. */
  lemma {:induction false} FinishOne(a: State, k: Name) returns (ls: seq<Label>)
    requires Sound(a) && k in a.handles && !IsIdle(a, k)
    ensures Legal(a, ls) && Alone(a, ls, k)
    ensures var a' := Run(a, ls);
      k in a'.handles ==> IsIdle(a', k) && Source(a.handles[k].phase).Some?
    decreases Remaining(a.handles[k].phase)
  {
    var l := NextLabel(k, a.handles[k].phase);
    NextAdvances(a, k);
    StepSound(a, l);
    var a1 := Step(a, l);
    var rest := [];
    hide Sound, Step, Enabled, Disciplined, NextLabel, Remaining, Source;
    if k in a1.handles && !IsIdle(a1, k) {
      rest := FinishOne(a1, k);
    }
    assert Alone(a1, rest, k);
    AloneFirst(a, l, rest, k);
    ls := [l] + rest;
  }

  lemma Prepend(a: State, l: Label, ls: seq<Label>)
    requires Enabled(a, l) && Disciplined(a, l) && Legal(Step(a, l), ls)
    ensures Legal(a, [l] + ls) && Run(a, [l] + ls) == Run(Step(a, l), ls)
  {
    hide Enabled, Disciplined, Step;
    assert ([l] + ls)[1..] == ls;
  }

  ghost function Busy(a: State): set<Name> {
    set k | k in a.handles && !IsIdle(a, k)
  }

  /** A run on existing handles only, after which every handle is gone, and every counter with them. */
  ghost predicate Drains(a: State, ls: seq<Label>) {
    && Legal(a, ls) && (forall l :: l in ls ==> l.h in a.handles)
    && Run(a, ls).handles == map[] && Run(a, ls).counters == map[]
  }

  lemma EmptyHasNoCounters(a: State)
    requires Sound(a) && a.handles == map[]
    ensures a.counters == map[]
  {
    assert forall r :: r in a.counters ==> CounterOk(a, r);
    forall r ensures r !in a.counters {
      assert Holders(a, r) == {};
    }
  }

  /** One handle leaves, or becomes idle. */
  lemma Progress(a: State, k: Name) returns (ls: seq<Label>)
    requires Sound(a) && k in a.handles && (IsIdle(a, k) ==> Busy(a) == {})
    ensures Legal(a, ls) && Sound(Run(a, ls)) && (forall l :: l in ls ==> l.h == k)
    ensures var a' := Run(a, ls);
      SameBut(a, a', k) && (k in a'.handles ==> IsIdle(a', k) && !IsIdle(a, k))
  {
    if IsIdle(a, k) {
      var d := Destroy(k);
      NobodyPins(a, k);
      StepSound(a, d);
      OthersLeave(a, d);
      assert Source(Step(a, d).handles[k].phase).None? && k in Step(a, d).handles && !IsIdle(Step(a, d), k);
      hide Sound, Step;
      var rest := FinishOne(Step(a, d), k);
      Prepend(a, d, rest);
      ls := [d] + rest;
    } else {
      ls := FinishOne(a, k);
    }
  }

  lemma NobodyPins(a: State, k: Name)
    requires Busy(a) == {}
    ensures !Pinned(a, k)
  {
    forall j | j in a.handles ensures Source(a.handles[j].phase) != Some(k) {
      assert j !in Busy(a);
    }
  }

  lemma FewerLeft(a: State, a': State, k: Name)
    requires k in a.handles && SameBut(a, a', k) && (k in a'.handles ==> IsIdle(a', k) && !IsIdle(a, k))
    ensures a'.handles.Keys <= a.handles.Keys && |Busy(a')| + |a'.handles.Keys| < |Busy(a)| + |a.handles.Keys|
  {
    if k in a'.handles {
      assert Busy(a') == Busy(a) - {k} && k in Busy(a);
      assert a'.handles.Keys == a.handles.Keys;
    } else {
      assert Busy(a') == Busy(a) - {k};
      assert a'.handles.Keys == a.handles.Keys - {k};
    }
  }

  /** From every state in order, all operations can be finished and all handles destroyed. */
  lemma {:induction false} Drain(a: State) returns (ls: seq<Label>)
    requires Sound(a)
    ensures Drains(a, ls)
    decreases |Busy(a)| + |a.handles.Keys|
  {
    if a.handles == map[] {
      EmptyHasNoCounters(a);
      ls := [];
    } else {
      hide Sound, IsIdle;
      var k :| k in a.handles && (k in Busy(a) || Busy(a) == {});
      var first := Progress(a, k);
      var a' := Run(a, first);
      FewerLeft(a, a', k);
      var rest := Drain(a');
      Concat(a, first, rest);
      ls := first + rest;
    }
  }

  /** A run without h is one beside h too, when h is not in anybody's way. */
  lemma {:induction false} RunsBeside(a: State, s: State, h: Name, ls: seq<Label>)
    requires Twin(a, s, h) && h !in a.handles && h in s.handles
    requires Source(s.handles[h].phase) == None || Source(s.handles[h].phase) == Some(h)
    requires Legal(a, ls) && forall l :: l in ls ==> l.h != h
    ensures Legal(s, ls) && Twin(Run(a, ls), Run(s, ls), h) && Unmoved(s, Run(s, ls), h)
    decreases |ls|
  {
    if ls != [] {
      var l := ls[0];
      assert l in ls && LooksAt(a, l) != Some(h);
      SameEnabled(a, s, h, l);
      SameStep(a, s, h, l);
      hide Enabled, Disciplined, Step, SameShared;
      RunsBeside(Step(a, l), Step(s, l), h, ls[1..]);
    }
  }

  /** h has given its share up and keeps the stale fields v. All the others can go first. */
  lemma OthersGo(a: State, s: State, h: Name) returns (ls: seq<Label>)
    requires Sound(a) && Twin(a, s, h) && h !in a.handles && h in s.handles
    requires Source(s.handles[h].phase) == None || Source(s.handles[h].phase) == Some(h)
    ensures Legal(s, ls) && Run(s, ls).handles == map[h := s.handles[h]] && Run(s, ls).counters == map[]
  {
    ls := Drain(a);
    RunsBeside(a, s, h, ls);
    assert Run(s, ls).handles == map[h := s.handles[h]];
  }

  lemma OthersHold(s: State, h: Name)
    requires Sound(s) && IsIdle(s, h) && !OnlyHolder(s, h)
    ensures s.handles[h].obj == s.handles[h].ref
    ensures var r := s.handles[h].ref; r.Some? && r.value in s.counters && s.counters[r.value] > 1
  {
    assert HandleOk(s, h);
    var r := s.handles[h].ref.value;
    assert CounterOk(s, r);
    hide Sound;
    assert h in Holders(s, r);
  }

  /** h after its Release, with other holders left: it reads with its share given up. */
  ghost predicate GaveUp(s1: State, h: Name, src: Name, r: Id) {
    h in s1.handles && s1.handles[h] == Handle(Some(r), Some(r), Reading(src)) && Assigning(s1, h, src, h)
  }

  lemma SharedRelease(s: State, h: Name, src: Name) returns (s1: State)
    requires Sound(s) && IsIdle(s, h) && IsIdle(s, src) && !Pinned(s, h) && !OnlyHolder(s, h)
    ensures var s0 := Step(s, Assign(h, src));
      Legal(s0, [Check(h), Decrement(h)]) && s1 == Run(s0, [Check(h), Decrement(h)])
    ensures GaveUp(s1, h, src, s.handles[h].ref.value) && SameBut(s, s1, h)
  {
    OthersHold(s, h);
    Starts(s, h, src, h);
    var s0 := Step(s, Assign(h, src));
    CountedDownShared(s, h, src);
    hide Sound, Step, Enabled, Disciplined, Assigning, Shadow, Pins;
    TwoReleaseSteps(s0, h, src);
    TwoSteps(s0, Check(h), Decrement(h));
    s1 := Step(Step(s0, Check(h)), Decrement(h));
  }

  lemma TwoReleaseSteps(s: State, h: Name, src: Name)
    requires Assigning(s, h, src, h) && Enabled(s, Check(h)) && Enabled(Step(s, Check(h)), Decrement(h))
    ensures Assigning(Step(Step(s, Check(h)), Decrement(h)), h, src, h)
  {
    hide Step, Enabled, Shadow, Sound;
    ReleaseStep(s, Check(h), h, src, h);
    ReleaseStep(Step(s, Check(h)), Decrement(h), h, src, h);
  }

  /** What the check and the decrement do. */
  lemma CountedDownShared(s: State, h: Name, src: Name)
    requires IsIdle(s, h) && IsIdle(s, src) && s.handles[h].ref.Some? && s.handles[h].obj == s.handles[h].ref
    requires s.handles[h].ref.value in s.counters && s.counters[s.handles[h].ref.value] > 1
    ensures var s0, l, m, r := Step(s, Assign(h, src)), Check(h), Decrement(h), s.handles[h].ref.value;
      && Enabled(s0, l) && Disciplined(s0, l) && Enabled(Step(s0, l), m) && Disciplined(Step(s0, l), m)
      && var s1 := Step(Step(s0, l), m);
      h in s1.handles && s1.handles[h] == Handle(Some(r), Some(r), Reading(src)) && SameBut(s, s1, h)
  {
  }

  lemma TwoSteps(s: State, l: Label, m: Label)
    requires Enabled(s, l) && Disciplined(s, l) && Enabled(Step(s, l), m) && Disciplined(Step(s, l), m)
    ensures Legal(s, [l, m]) && Run(s, [l, m]) == Step(Step(s, l), m)
  {
    hide Enabled, Disciplined, Step;
    assert Legal(s, []);
    Append(s, [], l);
    Append(s, [l], m);
    assert [] + [l] == [l] && [l] + [m] == [l, m];
  }

  /** A run of legal steps of which the last is a fault. */
  ghost predicate EndsInFault(s: State, ls: seq<Label>) {
    Legal(s, ls) && Run(s, ls).fault
  }

  lemma Joined(s: State, xs: seq<Label>, ys: seq<Label>)
    requires Legal(s, xs) && EndsInFault(Run(s, xs), ys)
    ensures EndsInFault(s, xs + ys)
  {
    Concat(s, xs, ys);
  }

  /** Self-assignment: the others go before h reads its own stale fields and counts itself in. */
  lemma SelfFaults(s: State, h: Name, r: Id) returns (ls: seq<Label>)
    requires GaveUp(s, h, h, r)
    ensures EndsInFault(s, ls)
  {
    var a := Shadow(s, h, h);
    ShadowIsTwin(s, h, h);
    hide Sound;
    var go := OthersGo(a, s, h);
    var s' := Run(s, go);
    TwoSteps(s', Read(h), Add(h));
    ls := go + [Read(h), Add(h)];
    Joined(s, go, [Read(h), Add(h)]);
  }

  /** Assignment from a null handle: h keeps its stale counter, and gives up a share once more when it is
      destroyed after the others. */
  lemma NullFaults(s: State, h: Name, src: Name, r: Id) returns (ls: seq<Label>)
    requires GaveUp(s, h, src, r) && src != h && IsIdle(s, src) && s.handles[src].obj.None?
    ensures EndsInFault(s, ls)
  {
    var a, s' := Shadow(s, h, h), Step(s, Read(h));
    hide Sound;
    assert s'.handles[h] == Handle(None, Some(r), Idle) && Twin(a, s', h);
    var go := OthersGo(a, s', h);
    var last := Run(s', go);
    TwoSteps(last, Destroy(h), Check(h));
    Joined(s', go, [Destroy(h), Check(h)]);
    var rest := go + [Destroy(h), Check(h)];
    Prepend(s, Read(h), rest);
    ls := [Read(h)] + rest;
  }

  lemma SharedFaults(s: State, h: Name, src: Name) returns (ls: seq<Label>)
    requires Sound(s) && IsIdle(s, h) && IsIdle(s, src) && !Pinned(s, h)
    requires Hollow(s, h, src) && !OnlyHolder(s, h)
    ensures EndsInFault(Step(s, Assign(h, src)), ls)
  {
    var s0 := Step(s, Assign(h, src));
    hide Sound, Step, Enabled, GaveUp;
    var s1 := SharedRelease(s, h, src);
    var rest;
    if src == h {
      rest := SelfFaults(s1, h, s.handles[h].ref.value);
    } else {
      rest := NullFaults(s1, h, src, s.handles[h].ref.value);
    }
    ls := [Check(h), Decrement(h)] + rest;
    Joined(s0, [Check(h), Decrement(h)], rest);
  }

  // ---- The exact condition ----

  ghost predicate NeverFaults(s: State) {
    forall ls :: Legal(s, ls) ==> !Run(s, ls).fault
  }

  /** An assignment can never lead to an access of a deleted counter or object if and only if its source is
      another handle that holds an object, or its target is the only holder of its object or null. */
  lemma AssignmentSafeExactly(s: State, h: Name, src: Name)
    requires Sound(s) && IsIdle(s, h) && IsIdle(s, src) && !Pinned(s, h)
    ensures NeverFaults(Step(s, Assign(h, src))) <==> (src != h && s.handles[src].obj.Some?) || OnlyHolder(s, h)
  {
    var s0 := Step(s, Assign(h, src));
    if !Hollow(s, h, src) {
      StepSound(s, Assign(h, src));
      hide Sound;
      forall ls | Legal(s0, ls) ensures !Run(s0, ls).fault {
        RunSound(s0, ls);
        SoundCountsRight(Run(s0, ls));
      }
    } else if OnlyHolder(s, h) {
      hide Sound;
      forall ls | Legal(s0, ls) ensures !Run(s0, ls).fault {
        OnlyHolderIsSafe(s, h, src, ls);
      }
    } else {
      hide Sound;
      var ls := SharedFaults(s, h, src);
      assert !NeverFaults(s0);
    }
  }

  /** A state in which that matters: two handles of one object, and a null one. */
  lemma SharedHappens() returns (ls: seq<Label>)
    ensures Legal(INIT, ls)
    ensures var s := Run(INIT, ls);
      Sound(s) && IsIdle(s, 0) && !Pinned(s, 0) && !OnlyHolder(s, 0) && IsIdle(s, 2) && s.handles[2].obj.None?
  {
    var s1 := Step(INIT, Construct(0));
    var s2 := Step(Step(s1, Copy(1, 0)), Add(1));
    TwoSteps(s1, Copy(1, 0), Add(1));
    Prepend(INIT, Construct(0), [Copy(1, 0), Add(1)]);
    ls := [Construct(0)] + [Copy(1, 0), Add(1)];
    Append(INIT, ls, Default(2));
    ls := ls + [Default(2)];
    RunSound(INIT, ls);
  }
}
