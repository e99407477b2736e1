/** The reference-counting handle as the class it is in the code, used by one thread at a time: what each
    operation does to the handles that share an object. The interleavings are in RefCounting. */
module RefCountPtrs {

  /** The counter the first handle of an object allocates. */
  class Counter {
    var n: int
    var alive: bool

    constructor ()
      ensures n == 1 && alive
    {
      n, alive := 1, true;
    }

    method Delete()
      requires alive
      modifies this
      ensures !alive && n == old(n)
    {
      alive := false;
    }
  }

  class Target {
    var alive: bool

    constructor ()
      ensures alive
    {
      alive := true;
    }

    /** delete: not of an object that is gone. */
    method Delete()
      requires alive
      modifies this
      ensures !alive
    {
      alive := false;
    }
  }

  class CRefCountPtr {
    var obj: Target?
    var ref: Counter?

    /** Exactly these handles hold the object: the counter counts them, and object and counter are there as
        long as there is one. */
    static ghost predicate Shared(o: Target?, r: Counter?, holders: set<CRefCountPtr>)
      reads o, r, holders
    {
      && o != null && r != null
      && o.alive == r.alive == (holders != {})
      && r.n == |holders|
      && forall h :: h in holders ==> h.obj == o && h.ref == r
    }

    constructor Null()
      ensures obj == null && ref == null
    {
      obj, ref := null, null;
    }

    constructor (p: Target)
      requires p.alive
      ensures obj == p && ref != null && fresh(ref) && Shared(p, ref, {this})
    {
      obj := p;
      ref := new Counter();
    }

    constructor Copy(rcf: CRefCountPtr, ghost holders: set<CRefCountPtr>)
      requires rcf.ref != null ==> rcf in holders && Shared(rcf.obj, rcf.ref, holders)
      modifies rcf.ref
      ensures obj == rcf.obj && ref == rcf.ref
      ensures ref != null ==> Shared(obj, ref, holders + {this})
    {
      obj, ref := rcf.obj, rcf.ref;
      new;
      if ref != null {
        ref.n := ref.n + 1;
      }
    }

    /** One handle fewer; the last one deletes object and counter and forgets both. */
    method Release(ghost holders: set<CRefCountPtr>)
      requires ref != null ==> this in holders && Shared(obj, ref, holders)
      modifies this, obj, ref
      ensures old(ref) != null ==> Shared(old(obj), old(ref), holders - {this})
      ensures if old(ref) != null && holders == {this} then obj == null && ref == null
          else unchanged(`obj) && unchanged(`ref)
    {
      if ref != null && ref.n != 0 {
        assert |holders| == |holders - {this}| + 1;
        ref.n := ref.n - 1;
        if ref.n == 0 {
          assert holders - {this} == {};
          obj.Delete();
          obj := null;
          ref.Delete();
          ref := null;
        }
      }
    }

    /** Assignment from any handle. From a handle that holds an object the old object loses a holder, perhaps its
        last, and the new one gains one. From a null handle the old object loses a holder, but unless it was the
        last the counter stays behind in this handle. From itself nothing changes, unless it is the only holder:
        that one deletes the object and ends null. */
    method Assign(rcf: CRefCountPtr, ghost mine: set<CRefCountPtr>, ghost theirs: set<CRefCountPtr>)
      requires rcf.obj != null ==> rcf in theirs && Shared(rcf.obj, rcf.ref, theirs)
      requires ref != null ==> this in mine && Shared(obj, ref, mine)
      requires rcf.obj != null ==> if ref == rcf.ref then mine == theirs else this !in theirs && obj != rcf.obj
      modifies this, obj, ref, rcf.ref
      ensures rcf != this ==> unchanged(rcf)
      ensures rcf != this && old(rcf.obj) != null ==>
        && obj == old(rcf.obj) && ref == old(rcf.ref)
        && Shared(obj, ref, theirs + {this})
        && (old(ref) != null && old(ref) != ref ==> Shared(old(obj), old(ref), mine - {this}))
      ensures rcf != this && old(rcf.obj) == null ==>
        && obj == null && ref == (if mine == {this} then null else old(ref))
        && (old(ref) != null ==> Shared(old(obj), old(ref), mine - {this}))
      ensures rcf == this && old(ref) != null ==>
        if mine == {this} then obj == null && ref == null && Shared(old(obj), old(ref), {})
        else unchanged(`obj) && unchanged(`ref) && Shared(obj, ref, mine)
    {
      assert this in mine ==> |mine| == |mine - {this}| + 1 && (mine - {this} == {} ==> mine == {this});
      Release(mine);
      obj := rcf.obj;
      if obj != null {
        ref := rcf.ref;
        ref.n := ref.n + 1;
      }
    }
  }
}
