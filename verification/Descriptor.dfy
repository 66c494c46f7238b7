/** The slot record of the block table: `SharedMemoryBlockDescriptor` without its
    synchronisation members, as a value (`Desc`) and as the object whose methods
    update it in place. */
module Descriptor {
  import opened Bytes

  /** Block names are abstract strings; the empty name marks an inactive slot. */
  type Name = string

  datatype Desc = Desc(active: bool, name: Name, size: nat, capacity: nat, resizeCount: nat)

  const CLEARED: Desc := Desc(false, "", 0, 0, 0)

  /** `resize_count_` is a `uint32_t`, so the increment is taken modulo 2^32. */
  function RecordSize(d: Desc, newsize: nat, alloc: nat): Desc {
    d.(resizeCount := if newsize > d.capacity then (d.resizeCount + 1) % UINT32 else d.resizeCount,
       capacity := if alloc != 0 then alloc else d.capacity,
       size := newsize)
  }

  /** What every operation of the table keeps true of one slot. The resize count
      never exceeds the allocated size, which is why it cannot wrap around. */
  predicate DescOk(d: Desc) {
    && d.size <= d.capacity < UINT32
    && d.resizeCount <= d.capacity
    && (!d.active ==> d == CLEARED)
    && (d.active ==> d.name != "")
  }

  /** Growing a slot: the resize count goes up by exactly one, without wrapping,
      although it is a 32-bit counter. */
  lemma GrowingCountsOnce(d: Desc, n: nat)
    requires DescOk(d) && d.active && d.capacity < n < UINT32
    ensures DescOk(RecordSize(d, n, n))
    ensures RecordSize(d, n, n).resizeCount == d.resizeCount + 1
  {
    assert d.resizeCount + 1 < UINT32;
  }

  class SharedMemoryBlockDescriptor {
    var active: bool
    var name: Name
    var size: nat
    var capacity: nat
    var resizeCount: nat

    function Value(): Desc
      reads this
    {
      Desc(active, name, size, capacity, resizeCount)
    }

    constructor ()
      ensures Value() == CLEARED
    {
      active, name, size, capacity, resizeCount := false, "", 0, 0, 0;
    }

    method RecordNewSize(newsize: nat, alloc: nat)
      modifies this
      ensures Value() == RecordSize(old(Value()), newsize, alloc)
    {
      if newsize > capacity {
        resizeCount := (resizeCount + 1) % UINT32;
      }
      if alloc != 0 {
        capacity := alloc;
      }
      size := newsize;
    }

    method Allocate(n: Name)
      modifies this
      ensures Value() == old(Value()).(active := true, name := n)
    {
      name := n;
      active := true;
    }

    method Reset()
      modifies this
      ensures Value() == CLEARED
    {
      active := false;
      name := "";
      size := 0;
      capacity := 0;
      resizeCount := 0;
    }

    predicate MatchName(n: Name)
      reads this
    {
      name == n
    }
  }
}
