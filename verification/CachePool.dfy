/** The buffer pool: an intrusive doubly linked free list with first-fit reuse and a size limit. */
module CachePools {

  class CacheDataUnit<Data(0)> {
    const data: array<Data>
    const len: nat
    var usedLen: nat
    var front: CacheDataUnit?<Data>
    var next: CacheDataUnit?<Data>

    constructor (len: nat)
      ensures this.len == len && data.Length == len && fresh(data)
      ensures usedLen == 0 && front == null && next == null
    {
      this.len, data := len, new Data[len];
      usedLen, front, next := 0, null, null;
    }
  }

  /** The index of the first unit that is large enough, or the length of the list. */
  function FirstFit<Data(0)>(units: seq<CacheDataUnit<Data>>, need: nat): (k: nat)
    ensures k <= |units|
    ensures forall i :: 0 <= i < k ==> units[i].len < need
    ensures k < |units| ==> need <= units[k].len
  {
    if units == [] || need <= units[0].len then 0 else 1 + FirstFit(units[1..], need)
  }

  /** Those three facts determine it. */
  lemma {:induction false} FirstFitUnique<Data(0)>(units: seq<CacheDataUnit<Data>>, need: nat, k: nat)
    requires k <= |units| && (forall i :: 0 <= i < k ==> units[i].len < need)
    requires k < |units| ==> need <= units[k].len
    ensures k == FirstFit(units, need)
  {
    if k > 0 {
      assert units[0].len < need;
      FirstFitUnique(units[1..], need, k - 1);
    }
  }

  /** The i-th unit of a list is linked to its neighbours, and to null at the ends. */
  ghost predicate Joined<Data(0)>(units: seq<CacheDataUnit<Data>>, i: nat)
    requires i < |units|
    reads units[i]
  {
    && units[i].front == (if i == 0 then null else units[i - 1])
    && units[i].next == (if i == |units| - 1 then null else units[i + 1])
  }

  function Max(a: nat, b: nat): nat {
    if a < b then b else a
  }

  class CachePool<Data(0)> {
    var head: CacheDataUnit?<Data>
    var tail: CacheDataUnit?<Data>
    var size: nat
    var curSize: nat
    var limitSize: nat

    /** The free list from head to tail, the units handed out, and the size the pool was given at first. */
    ghost var free: seq<CacheDataUnit<Data>>
    ghost var out: set<CacheDataUnit<Data>>
    ghost var initSize: nat

    /** Forward and backward links describe the same acyclic list, whose ends are head and tail. */
    ghost predicate Linked()
      reads `head, `tail, `free, free
    {
      && (forall i, j :: 0 <= i < j < |free| ==> free[i] != free[j])
      && head == (if free == [] then null else free[0])
      && tail == (if free == [] then null else free[|free| - 1])
      && (forall i :: 0 <= i < |free| ==> Joined(free, i))
    }

    /** Units handed out are not in the list, link to nothing, and use no more than they have. */
    ghost predicate Detached()
      reads `free, `out, out
    {
      forall u :: u in out ==> u !in free && u.front == null && u.next == null && u.usedLen <= u.len
    }

    ghost predicate Valid()
      reads this, free, out
    {
      && Linked()
      && Detached()
      && curSize == |free|
      && size == |free| + |out|
      && size <= Max(limitSize, initSize)
    }

    constructor ()
      ensures Valid() && free == [] && out == {} && limitSize == 0
    {
      head, tail, size, curSize, limitSize := null, null, 0, 0, 0;
      free, out, initSize := [], {}, 0;
    }

    /** New units join the list; the counters then count those alone, which is right exactly on a pool that
        had no units. */
    method CachePoolInit(limit: nat, count: nat, buffSize: nat)
      requires Valid()
      modifies this, free
      ensures Linked() && Detached() && limitSize == limit && initSize == size == curSize == count && out == old(out)
      ensures |free| == |old(free)| + count && free[..|old(free)|] == old(free)
      ensures forall i :: |old(free)| <= i < |free| ==> fresh(free[i]) && free[i].len == buffSize
      ensures Valid() <==> old(free) == [] && old(out) == {}
    {
      limitSize := limit;
      var index := 0;
      while index < count
        invariant 0 <= index <= count && limitSize == limit && out == old(out)
        invariant Linked() && Detached() && |free| == |old(free)| + index && free[..|old(free)|] == old(free)
        invariant forall i :: |old(free)| <= i < |free| ==> fresh(free[i]) && free[i].len == buffSize
      {
        var unit := new CacheDataUnit<Data>(buffSize);
        CachePoolPushBack(unit);
        index := index + 1;
      }
      size := count;
      curSize := count;
      initSize := count;
    }

    method CachePoolGetData(need: nat) returns (unit: CacheDataUnit?<Data>)
      requires Valid()
      modifies this, free
      ensures Valid() && limitSize == old(limitSize) && initSize == old(initSize)
      ensures var k := FirstFit(old(free), need);
        if k < |old(free)| then
          && unit == old(free[k]) && free == old(free[..k] + free[k + 1..])
          && out == old(out) + {unit} && size == old(size)
        else if old(size < limitSize) then
          && unit != null && fresh(unit) && unit.len == need && free == old(free)
          && out == old(out) + {unit} && size == old(size) + 1
        else
          unit == null && free == old(free) && out == old(out) && size == old(size)
      ensures unit != null ==> unit.usedLen == need <= unit.len && unit.front == null && unit.next == null
      ensures forall u :: u in old(out) ==> u.usedLen == old(u.usedLen)
    {
      hide FirstFit, Joined, Linked, Detached;
      var cur := TakeFirstFit(need);
      if cur == null {
        if size < limitSize {
          cur := new CacheDataUnit<Data>(need);
          size := size + 1;
        } else {
          return null;
        }
      }
      HandOut(cur, need);
      return cur;
    }

    method HandOut(unit: CacheDataUnit<Data>, need: nat)
      requires Linked() && Detached() && unit !in free && unit !in out
      requires unit.front == null && unit.next == null && need <= unit.len
      modifies this`out, unit`usedLen
      ensures Linked() && Detached() && out == old(out) + {unit} && unit.usedLen == need
    {
      unit.usedLen := need;
      out := out + {unit};
      forall i | 0 <= i < |free| ensures Joined(free, i) {
        assert old(Joined(free, i));
      }
    }

    /** The search loop: the first unit that is large enough leaves the list. */
    method TakeFirstFit(need: nat) returns (cur: CacheDataUnit?<Data>)
      requires Linked() && Detached() && curSize == |free|
      modifies this`head, this`tail, this`curSize, this`free, free
      ensures Linked() && Detached() && curSize == |free|
      ensures var k := FirstFit(old(free), need);
        if k < |old(free)| then cur == old(free[k]) && free == old(free[..k] + free[k + 1..])
        else cur == null && free == old(free)
      ensures cur != null ==> cur in old(free) && cur !in free && cur !in out && |free| == |old(free)| - 1
      ensures cur != null ==> need <= cur.len && cur.front == null && cur.next == null
      ensures forall u :: u in free ==> u in old(free)
      ensures forall u :: u in old(free) ==> u.usedLen == old(u.usedLen)
    {
      hide FirstFit;
      cur := head;
      ghost var k := 0;
      while cur != null
        invariant 0 <= k <= |free| && cur == (if k == |free| then null else free[k])
        invariant forall i :: 0 <= i < k ==> free[i].len < need
        decreases |free| - k
      {
        if need <= cur.len {
          FirstFitUnique(free, need, k);
          Unlink(cur, k);
          curSize := curSize - 1;
          return;
        }
        assert Joined(free, k);
        cur := cur.next;
        k := k + 1;
      }
      FirstFitUnique(free, need, k);
    }

    /** The relinking inside the search loop, at the k-th unit. */
    method Unlink(cur: CacheDataUnit<Data>, ghost k: nat)
      requires Linked() && Detached() && k < |free| && cur == free[k]
      modifies this`head, this`tail, this`free, free
      ensures free == old(free[..k] + free[k + 1..]) && Linked() && Detached()
      ensures cur.front == null && cur.next == null
      ensures forall u :: u in old(free) ==> u.usedLen == old(u.usedLen)
    {
      assert Joined(free, k);
      assert k > 0 ==> Joined(free, k - 1);
      assert k < |free| - 1 ==> Joined(free, k + 1);
      if cur == head {
        head := cur.next;
        if head != null {
          head.front := null;
        } else {
          tail := null;
        }
      } else {
        cur.front.next := cur.next;
        if cur.next != null {
          cur.next.front := cur.front;
        }
        if cur == tail {
          tail := cur.front;
        }
      }
      cur.front := null;
      cur.next := null;
      free := free[..k] + free[k + 1..];
      forall i | 0 <= i < |free| ensures Joined(free, i) {
        assert old(Joined(free, if i < k then i else i + 1));
      }
      hide Joined;
    }

    method CachePoolReturn(unit: CacheDataUnit?<Data>)
      requires Valid() && (unit != null ==> unit in out)
      modifies this, free, unit
      ensures Valid() && limitSize == old(limitSize) && initSize == old(initSize) && size == old(size)
      ensures free == (if unit == null then old(free) else old(free) + [unit])
      ensures out == old(out) - (if unit == null then {} else {unit})
      ensures forall u :: u in old(out) ==> u.usedLen == old(u.usedLen)
    {
      if unit != null {
        CachePoolPushBack(unit);
        out := out - {unit};
      }
    }

    method CachePoolPushBack(unit: CacheDataUnit<Data>)
      requires Linked() && unit !in free && unit.front == null && unit.next == null
      modifies this`head, this`tail, this`curSize, this`free, free, unit
      ensures Linked() && free == old(free) + [unit] && curSize == old(curSize) + 1
      ensures forall u :: u in free ==> u.usedLen == old(u.usedLen)
    {
      if tail != null {
        tail.next := unit;
        unit.front := tail;
      } else {
        head := unit;
      }
      tail := unit;
      curSize := curSize + 1;
      free := free + [unit];
      forall i | 0 <= i < |free| ensures Joined(free, i) {
        if i < |free| - 1 {
          assert old(Joined(free, i));
        }
      }
    }

    /** Deletes the free units, each once and in list order; the pool forgets what is still handed out. */
    method CachePoolClear() returns (ghost deleted: seq<CacheDataUnit<Data>>)
      requires Valid()
      modifies this
      ensures deleted == old(free)
      ensures Valid() && free == [] && out == {} && limitSize == 0
    {
      var cur := head;
      deleted := [];
      while cur != null
        invariant |deleted| <= |free| && deleted == free[..|deleted|]
        invariant cur == (if |deleted| == |free| then null else free[|deleted|])
        decreases |free| - |deleted|
      {
        assert Joined(free, |deleted|);
        var next := cur.next;
        deleted := deleted + [cur];
        cur := next;
      }
      head, tail, size, curSize, limitSize := null, null, 0, 0, 0;
      free, out, initSize := [], {}, 0;
    }
  }
}
