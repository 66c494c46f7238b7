/** The block table: 100 slots over a segment of named blocks, as the class whose
    methods search and update them in place.  Every operation runs alone here, so no
    client is registered and no wait is entered. */
module BlockTable {
  import opened Bytes
  import opened Descriptor
  import opened RawMessages
  import opened Streams

  const NUM_BLOCKS := 100

  /** managed_shared_memory: named byte arrays.  The array's identity is the block's address. */
  class Segment {
    var blocks: map<Name, array<byte>>

    constructor ()
      ensures blocks == map[]
    {
      blocks := map[];
    }

    method Find(name: Name) returns (ptr: array?<byte>, length: nat)
      ensures if name in blocks then ptr == blocks[name] && length == blocks[name].Length
              else ptr == null && length == 0
    {
      if name in blocks {
        ptr, length := blocks[name], blocks[name].Length;
      } else {
        ptr, length := null, 0;
      }
    }

    method Destroy(name: Name)
      modifies this
      ensures blocks == old(blocks) - {name}
    {
      blocks := blocks - {name};
    }

    /** `available` is whether the segment has room; null stands for bad_alloc. */
    method FindOrConstruct(name: Name, size: nat, available: bool) returns (ptr: array?<byte>)
      modifies this
      ensures name in old(blocks) ==> ptr == old(blocks)[name] && blocks == old(blocks)
      ensures name !in old(blocks) && available ==>
                fresh(ptr) && ptr.Length == size && AllZero(ptr[..]) && blocks == old(blocks)[name := ptr]
      ensures name !in old(blocks) && !available ==> ptr == null && blocks == old(blocks)
    {
      if name in blocks {
        return blocks[name];
      }
      if !available {
        return null;
      }
      var block := new byte[size](i => 0);
      blocks := blocks[name := block];
      return block;
    }
  }

  datatype ShmHandle = ShmHandle(handle: nat, resizeCount: nat, ptr: array?<byte>) {
    predicate IsValid() {
      ptr != null
    }
  }

  /** shm_handle(): handle(-1) in 32 bits, no pointer. */
  const INVALID := ShmHandle(UINT32 - 1, 0, null)

  // ---------------------------------------------------------------- the abstract table

  /** The slots and the segment's directory. */
  datatype Table = Table(slots: seq<Desc>, blocks: map<Name, array<byte>>)

  predicate NamesDistinct(slots: seq<Desc>) {
    forall i, j | 0 <= i < j < |slots| && slots[i].active && slots[j].active :: slots[i].name != slots[j].name
  }

  predicate SlotOf(t: Table, name: Name, i: nat) {
    i < |t.slots| && t.slots[i].active && t.slots[i].name == name
  }

  /** One slot against the segment: an active one has a block of the recorded length. */
  predicate SlotOk(t: Table, d: Desc) {
    && DescOk(d)
    && (d.active ==> d.name in t.blocks && t.blocks[d.name].Length == d.capacity)
  }

  ghost predicate Owned(t: Table, name: Name) {
    exists i: nat :: SlotOf(t, name, i)
  }

  /** A slot with a block at least as long as the size it records. */
  predicate HasBlock(t: Table, i: nat)
    requires i < |t.slots|
  {
    t.slots[i].name in t.blocks && t.slots[i].size <= t.blocks[t.slots[i].name].Length
  }

  predicate BlocksDistinct(blocks: map<Name, array<byte>>) {
    forall m, n | m in blocks && n in blocks && m != n :: blocks[m] != blocks[n]
  }

  /** The table as a map from topic to block: one active slot for each block and one block
      of the recorded length for each active slot. */
  ghost predicate Consistent(t: Table) {
    && |t.slots| == NUM_BLOCKS
    && NamesDistinct(t.slots)
    && (forall i | 0 <= i < NUM_BLOCKS :: SlotOk(t, t.slots[i]))
    && (forall n | n in t.blocks :: Owned(t, n))
    && BlocksDistinct(t.blocks)
  }

  /** The handle a slot's block is reached by now. */
  function Connected(t: Table, i: nat): ShmHandle
    requires i < |t.slots| && t.slots[i].name in t.blocks
  {
    ShmHandle(i, t.slots[i].resizeCount, t.blocks[t.slots[i].name])
  }

  /** Only slot i and the blocks in `names` differ. */
  ghost predicate OnlySlot(before: Table, after: Table, i: nat, name: Name) {
    && |before.slots| == |after.slots|
    && (forall j | 0 <= j < |before.slots| && j != i :: after.slots[j] == before.slots[j])
    && after.blocks - {name} == before.blocks - {name}
  }

  /** Only a slot of topic `name`, or one that was free, and the topic's block differ. */
  ghost predicate OnlyTopic(before: Table, after: Table, name: Name) {
    before == after || exists i: nat ::
      && i < |before.slots| && (!before.slots[i].active || before.slots[i].name == name)
      && OnlySlot(before, after, i, name)
  }

  lemma OnlySlotTwice(t: Table, u: Table, v: Table, i: nat, name: Name)
    requires OnlySlot(t, u, i, name) && OnlySlot(u, v, i, name)
    ensures OnlySlot(t, v, i, name)
  {
  }

  // ---------------------------------------------------------------- handles

  /** What a handle of a slot that is not reset tells its owner: a count equal to the
      slot's means the pointer is the live block, and the count is never ahead. */
  predicate HandleOk(t: Table, h: ShmHandle) {
    h.IsValid() ==>
      && h.handle < |t.slots| && t.slots[h.handle].active && t.slots[h.handle].name in t.blocks
      && h.resizeCount <= t.slots[h.handle].resizeCount
      && (h.resizeCount == t.slots[h.handle].resizeCount ==> h.ptr == t.blocks[t.slots[h.handle].name])
  }

  /** What comparing the counts tells about a handle is right: a level one points at the
      live block. */
  predicate Recognisable(t: Table, h: ShmHandle)
    requires h.handle < |t.slots| && t.slots[h.handle].name in t.blocks
  {
    h.resizeCount == t.slots[h.handle].resizeCount ==> h.ptr == t.blocks[t.slots[h.handle].name]
  }

  /** The block is looked up again exactly if the counts differ; a slot that has been reset
      has none. */
  function Refreshed(t: Table, h: ShmHandle): ShmHandle
    requires h.handle < |t.slots|
  {
    var d := t.slots[h.handle];
    if h.resizeCount == d.resizeCount then h
    else ShmHandle(h.handle, d.resizeCount, if d.name in t.blocks then t.blocks[d.name] else null)
  }

  /** What serialize and deserialize ask of a handle, one from before a reset too: if its
      slot is in use, its count tells right. */
  predicate Accessible(t: Table, h: ShmHandle) {
    && h.handle < |t.slots|
    && (t.slots[h.handle].active ==> t.slots[h.handle].name in t.blocks && Recognisable(t, h))
  }

  /** Where such an access goes: to the live block, or, with a stream of no bytes over it,
      to where a slot that is not in use leaves the handle. */
  function Target(t: Table, h: ShmHandle): array?<byte>
    requires Accessible(t, h)
  {
    Refreshed(t, h).ptr
  }

  lemma HandleOkIsAccessible(t: Table, h: ShmHandle)
    requires HandleOk(t, h) && h.IsValid()
    ensures Accessible(t, h) && t.slots[h.handle].active && Refreshed(t, h) == Connected(t, h.handle)
  {
  }

  /** A step of the table without a reset: no slot loses its topic, a count rises by one or
      not at all, and it rises exactly when the slot's block is another array. */
  ghost predicate Evolves(before: Table, after: Table) {
    && |before.slots| == |after.slots|
    && forall i | 0 <= i < |before.slots| && before.slots[i].active && before.slots[i].name in before.blocks ::
         && after.slots[i].active && after.slots[i].name == before.slots[i].name
         && after.slots[i].name in after.blocks
         && before.slots[i].resizeCount <= after.slots[i].resizeCount <= before.slots[i].resizeCount + 1
         && (before.slots[i].resizeCount < after.slots[i].resizeCount
             <==> after.blocks[after.slots[i].name] != before.blocks[before.slots[i].name])
  }

  lemma HandleStep(h: ShmHandle, before: Table, after: Table)
    requires HandleOk(before, h) && Evolves(before, after)
    ensures HandleOk(after, h)
  {
  }

  /** Stale handles are detected after any number of steps. */
  lemma {:induction false} HandlesStayDetectable(h: ShmHandle, run: seq<Table>)
    requires run != [] && HandleOk(run[0], h)
    requires forall k | 0 <= k < |run| - 1 :: Evolves(run[k], run[k + 1])
    ensures HandleOk(run[|run| - 1], h)
  {
    if |run| > 1 {
      HandleStep(h, run[0], run[1]);
      assert forall k | 0 <= k < |run[1..]| - 1 :: run[1..][k] == run[k + 1];
      HandlesStayDetectable(h, run[1..]);
    }
  }

  // ---------------------------------------------------------------- when the table is full

  /** The names of the active slots among the first n. */
  ghost function Names(slots: seq<Desc>, n: nat): set<Name>
    requires n <= |slots|
  {
    if n == 0 then {}
    else Names(slots, n - 1) + if slots[n - 1].active then {slots[n - 1].name} else {}
  }

  ghost function ActiveCount(slots: seq<Desc>, n: nat): (c: nat)
    requires n <= |slots|
    ensures c <= n
    ensures c == n <==> forall i | 0 <= i < n :: slots[i].active
  {
    if n == 0 then 0 else ActiveCount(slots, n - 1) + if slots[n - 1].active then 1 else 0
  }

  lemma {:induction false} NamesAreThose(slots: seq<Desc>, n: nat, name: Name)
    requires n <= |slots|
    ensures name in Names(slots, n) <==> exists i | 0 <= i < n :: slots[i].active && slots[i].name == name
  {
    if n > 0 {
      NamesAreThose(slots, n - 1, name);
    }
  }

  lemma NewName(slots: seq<Desc>, n: nat)
    requires n < |slots| && NamesDistinct(slots) && slots[n].active
    ensures slots[n].name !in Names(slots, n)
  {
    NamesAreThose(slots, n, slots[n].name);
    hide Names;
  }

  lemma OneMoreName(names: set<Name>, name: Name)
    requires name !in names
    ensures |names + {name}| == |names| + 1
  {
  }

  lemma {:induction false} AsManyNamesAsSlots(slots: seq<Desc>, n: nat)
    requires n <= |slots| && NamesDistinct(slots)
    ensures |Names(slots, n)| == ActiveCount(slots, n)
  {
    hide NamesDistinct;
    if n > 0 {
      AsManyNamesAsSlots(slots, n - 1);
      if slots[n - 1].active {
        NewName(slots, n - 1);
        OneMoreName(Names(slots, n - 1), slots[n - 1].name);
      } else {
        assert Names(slots, n - 1) + {} == Names(slots, n - 1);
      }
    }
  }

  /** All slots are taken exactly when the segment holds 100 blocks. */
  lemma FullExactly(t: Table)
    requires Consistent(t)
    ensures |t.blocks| <= NUM_BLOCKS
    ensures |t.blocks| == NUM_BLOCKS <==> forall i | 0 <= i < NUM_BLOCKS :: t.slots[i].active
  {
    forall n ensures n in Names(t.slots, NUM_BLOCKS) <==> n in t.blocks {
      NamesAreThose(t.slots, NUM_BLOCKS, n);
    }
    assert Names(t.slots, NUM_BLOCKS) == t.blocks.Keys;
    AsManyNamesAsSlots(t.slots, NUM_BLOCKS);
  }

  // ---------------------------------------------------------------- updates of the table

  /** Slot i with a new record; its block stays. */
  function Recorded(t: Table, i: nat, size: nat, alloc: nat): Table
    requires i < |t.slots|
  {
    t.(slots := t.slots[i := RecordSize(t.slots[i], size, alloc)])
  }

  /** Slot i, taken for `name` unless it already is, with the new block ptr of `size` bytes. */
  function Rebuilt(t: Table, i: nat, name: Name, size: nat, ptr: array<byte>): Table
    requires i < |t.slots|
  {
    Table(t.slots[i := RecordSize(t.slots[i].(active := true, name := name), size, size)], t.blocks[name := ptr])
  }

  /** Slot i taken for `name`, with no block for it yet. */
  function Entered(t: Table, i: nat, name: Name, size: nat): Table
    requires i < |t.slots|
  {
    t.(slots := t.slots[i := RecordSize(CLEARED.(active := true, name := name), size, size)])
  }

  /** Slot i, which is not in use, with the new block ptr that has no topic's name. */
  function Nameless(t: Table, i: nat, size: nat, ptr: array<byte>): Table
    requires i < |t.slots|
  {
    Table(t.slots[i := RecordSize(t.slots[i], size, size)], t.blocks[t.slots[i].name := ptr])
  }

  /** Slot i given up together with its block. */
  function Dropped(t: Table, i: nat): Table
    requires i < |t.slots|
  {
    Table(t.slots[i := CLEARED], t.blocks - {t.slots[i].name})
  }

  /** The topic has a slot; whether it has a block is left open, all else is as before. */
  ghost predicate LeftHalfMade(before: Table, after: Table, name: Name) {
    exists i: nat :: SlotOf(after, name, i) && OnlySlot(before, after, i, name)
  }

  predicate IsNew(t: Table, ptr: array<byte>) {
    forall n | n in t.blocks :: t.blocks[n] != ptr
  }

  /** Slot i updated under an unchanged or new name: the names stay owned. */
  lemma StillOwned(t: Table, u: Table, i: nat, name: Name)
    requires Consistent(t) && i < NUM_BLOCKS && |u.slots| == NUM_BLOCKS
    requires OnlySlot(t, u, i, name)
    requires t.slots[i].active ==> t.slots[i].name == name
    requires u.slots[i].active <==> name in u.blocks
    requires u.slots[i].active ==> u.slots[i].name == name
    ensures forall n | n in u.blocks :: Owned(u, n)
  {
    forall n | n in u.blocks
      ensures Owned(u, n)
    {
      if n == name {
        assert SlotOf(u, n, i);
      } else {
        assert n in u.blocks - {name};
        assert Owned(t, n);
        var j: nat :| SlotOf(t, n, j);
        assert SlotOf(u, n, j);
      }
    }
  }

  /** The other slots and blocks are as consistent as they were. */
  lemma OthersKept(t: Table, u: Table, i: nat, name: Name)
    requires Consistent(t) && i < NUM_BLOCKS && |u.slots| == NUM_BLOCKS
    requires OnlySlot(t, u, i, name)
    requires if t.slots[i].active then t.slots[i].name == name else name !in t.blocks
    ensures forall j | 0 <= j < NUM_BLOCKS && j != i :: SlotOk(u, u.slots[j])
    ensures forall j | 0 <= j < NUM_BLOCKS && j != i && u.slots[j].active :: u.slots[j].name != name
    ensures forall n | n in u.blocks && n != name :: n in t.blocks && u.blocks[n] == t.blocks[n]
  {
    forall n | n in u.blocks && n != name
      ensures n in t.blocks && u.blocks[n] == t.blocks[n]
    {
      assert n in u.blocks - {name};
    }
    forall j | 0 <= j < NUM_BLOCKS && j != i && t.slots[j].active
      ensures t.slots[j].name != name && t.slots[j].name in u.blocks - {name}
    {
      assert SlotOk(t, t.slots[j]);
      if t.slots[i].active {
        assert t.slots[i].name != t.slots[j].name;
      }
      assert t.slots[j].name in t.blocks - {name};
    }
  }

  /** What is left to check of a table in which only slot i and the block `name` differ. */
  lemma OneSlotSuffices(t: Table, u: Table, i: nat, name: Name)
    requires Consistent(t) && i < NUM_BLOCKS && |u.slots| == NUM_BLOCKS
    requires OnlySlot(t, u, i, name)
    requires if t.slots[i].active then t.slots[i].name == name else name !in t.blocks
    requires u.slots[i].active <==> name in u.blocks
    requires u.slots[i].active ==> u.slots[i].name == name
    requires SlotOk(u, u.slots[i])
    requires name in u.blocks ==>
      forall n | n in t.blocks && n != name :: t.blocks[n] != u.blocks[name]
    ensures Consistent(u)
  {
    OthersKept(t, u, i, name);
    StillOwned(t, u, i, name);
    hide SlotOk, Owned, OnlySlot;
    assert NamesDistinct(u.slots);
    assert BlocksDistinct(u.blocks);
  }

  lemma RecordedKeeps(t: Table, i: nat, size: nat, alloc: nat)
    requires Consistent(t) && i < NUM_BLOCKS && t.slots[i].active
    requires size <= t.slots[i].capacity && (alloc == 0 || alloc == t.slots[i].capacity)
    ensures Consistent(Recorded(t, i, size, alloc))
    ensures Evolves(t, Recorded(t, i, size, alloc)) && OnlySlot(t, Recorded(t, i, size, alloc), i, t.slots[i].name)
  {
    var u := Recorded(t, i, size, alloc);
    assert SlotOk(t, t.slots[i]);
    OneSlotSuffices(t, u, i, t.slots[i].name);
  }

  /** A block built anew, for a topic that had a smaller one or none: the table stays
      consistent, and only that topic is affected. */
  lemma RebuiltKeeps(t: Table, i: nat, name: Name, size: nat, ptr: array<byte>)
    requires Consistent(t) && i < NUM_BLOCKS && name != "" && size < UINT32
    requires if t.slots[i].active then t.slots[i].name == name && t.slots[i].capacity < size else name !in t.blocks
    requires ptr.Length == size && IsNew(t, ptr)
    ensures Consistent(Rebuilt(t, i, name, size, ptr))
    ensures Evolves(t, Rebuilt(t, i, name, size, ptr)) && OnlySlot(t, Rebuilt(t, i, name, size, ptr), i, name)
  {
    var u := Rebuilt(t, i, name, size, ptr);
    assert SlotOk(t, t.slots[i]);
    assert u.blocks - {name} == t.blocks - {name};
    OneSlotSuffices(t, u, i, name);
    RebuiltEvolves(t, i, name, size, ptr);
    hide Consistent, Evolves;
  }

  lemma RebuiltEvolves(t: Table, i: nat, name: Name, size: nat, ptr: array<byte>)
    requires Consistent(t) && i < NUM_BLOCKS && size < UINT32 && IsNew(t, ptr)
    requires if t.slots[i].active then t.slots[i].name == name && t.slots[i].capacity < size else name !in t.blocks
    requires OnlySlot(t, Rebuilt(t, i, name, size, ptr), i, name)
    ensures Evolves(t, Rebuilt(t, i, name, size, ptr))
  {
    var u := Rebuilt(t, i, name, size, ptr);
    assert SlotOk(t, t.slots[i]);
    OthersKept(t, u, i, name);
    hide Consistent;
    forall j | 0 <= j < NUM_BLOCKS && t.slots[j].active && t.slots[j].name in t.blocks && j != i
      ensures t.slots[j].name in u.blocks && u.blocks[t.slots[j].name] == t.blocks[t.slots[j].name]
    {
      assert SlotOk(u, u.slots[j]);
    }
  }

  lemma DroppedKeeps(t: Table, i: nat)
    requires Consistent(t) && i < NUM_BLOCKS
    ensures Consistent(Dropped(t, i)) && OnlySlot(t, Dropped(t, i), i, t.slots[i].name)
  {
    var u, name := Dropped(t, i), t.slots[i].name;
    if t.slots[i].active {
      assert u.blocks - {name} == t.blocks - {name};
      OneSlotSuffices(t, u, i, name);
    } else {
      InactiveSlot(t, i);
    }
  }

  lemma ActiveSlot(t: Table, i: nat)
    requires Consistent(t) && i < NUM_BLOCKS && t.slots[i].active
    ensures t.slots[i].name != "" && t.slots[i].name in t.blocks
    ensures t.slots[i].size <= t.slots[i].capacity == t.blocks[t.slots[i].name].Length < UINT32
  {
    assert SlotOk(t, t.slots[i]);
  }

  /** In a table that is in order a topic has a slot exactly if it has a block. */
  lemma EveryTopicHasItsBlock(t: Table, name: Name)
    requires Consistent(t)
    ensures Owned(t, name) <==> name in t.blocks
    ensures forall i: nat | SlotOf(t, name, i) :: HasBlock(t, i)
  {
    forall i: nat | SlotOf(t, name, i)
      ensures HasBlock(t, i)
    {
      ActiveSlot(t, i);
    }
  }

  lemma KeepsItsTopic(before: Table, after: Table, i: nat, name: Name)
    requires Consistent(before) && Evolves(before, after) && SlotOf(after, name, i)
    ensures i < |before.slots| && (before.slots[i].active ==> before.slots[i].name == name)
  {
    if before.slots[i].active {
      ActiveSlot(before, i);
    }
  }

  lemma NoSlotNoBlock(t: Table)
    requires Consistent(t) && forall i | 0 <= i < NUM_BLOCKS :: !t.slots[i].active
    ensures t.blocks == map[]
    ensures forall i | 0 <= i < NUM_BLOCKS :: t.slots[i] == CLEARED
  {
    forall n
      ensures n !in t.blocks
    {
      assert !Owned(t, n);
    }
    assert t.blocks.Keys == {};
    assert forall i | 0 <= i < NUM_BLOCKS :: SlotOk(t, t.slots[i]);
  }

  lemma NotFound(t: Table, name: Name)
    requires Consistent(t)
    requires forall j | 0 <= j < NUM_BLOCKS :: !SlotOf(t, name, j)
    ensures name !in t.blocks
  {
    assert !Owned(t, name);
  }

  predicate IsLive(t: Table, i: nat, r: ShmHandle) {
    i < |t.slots| && t.slots[i].name in t.blocks && r == Connected(t, i)
  }

  /** What reallocating the slot of handle h to `size` bytes makes of the table and of h.
      A slot that is not in use gets a block under the empty name and stays inactive. */
  predicate Reallocates(before: Table, h: ShmHandle, size: nat, available: bool, after: Table, r: ShmHandle)
    requires h.handle < |before.slots|
  {
    var i := h.handle;
    if size <= before.slots[i].capacity then
      after == Recorded(before, i, size, 0) && r == Refreshed(before, h)
    else if available then
      && r.IsValid() && IsLive(after, i, r)
      && after == if before.slots[i].active then Rebuilt(before, i, before.slots[i].name, size, r.ptr)
                  else Nameless(before, i, size, r.ptr)
    else
      after == Dropped(before, i) && r == INVALID
  }

  /** The handle survives unless memory is lacking, and then the slot has the size asked for. */
  lemma ReallocatedHandle(before: Table, h: ShmHandle, size: nat, available: bool, after: Table, r: ShmHandle)
    requires h.IsValid() && HandleOk(before, h) && Reallocates(before, h, size, available, after, r)
    ensures var i := h.handle;
      && (r.IsValid() <==> available || size <= before.slots[i].capacity)
      && (r.IsValid() ==> r.handle == i && IsLive(after, i, r))
      && (r.IsValid() ==> after.slots[i].size == size && after.slots[i].name == before.slots[i].name)
      && (r.IsValid() && size <= before.slots[i].capacity ==> after.blocks == before.blocks)
      && (!r.IsValid() ==> r == INVALID)
      && (!r.IsValid() ==> !after.slots[i].active && before.slots[i].name !in after.blocks)
  {
  }

  /** Whatever handle of an active slot it is given, one from before a reset too,
      reallocating leaves it on the live block exactly if its count told right or the
      block was built anew. */
  lemma ReallocatedIsLive(before: Table, h: ShmHandle, size: nat, available: bool, after: Table, r: ShmHandle)
    requires h.IsValid() && h.handle < |before.slots| && before.slots[h.handle].name in before.blocks
    requires Reallocates(before, h, size, available, after, r) && r.IsValid()
    ensures IsLive(after, h.handle, r) <==> Recognisable(before, h) || size > before.slots[h.handle].capacity
  {
    assert Recorded(before, h.handle, size, 0).blocks == before.blocks;
  }

  /** Slot i is taken, has its block, and has been counted at least once. */
  predicate Counted(t: Table, i: nat) {
    && i < |t.slots| && t.slots[i].active && t.slots[i].name in t.blocks
    && t.slots[i].resizeCount >= 1
  }

  /** The count of a handle that is left alone tells right in table t. */
  predicate ToldApart(t: Table, h: ShmHandle) {
    Counted(t, h.handle) && Recognisable(t, h)
  }

  ghost predicate ResetFree(run: seq<Table>) {
    run != [] && forall c | 0 <= c < |run| - 1 :: Evolves(run[c], run[c + 1])
  }

  lemma {:induction false} StaysCounted(run: seq<Table>, i: nat, c: nat)
    requires ResetFree(run) && Counted(run[0], i) && c < |run|
    ensures Counted(run[c], i) && Counted(run[|run| - 1], i)
    ensures run[c].slots[i].resizeCount <= run[|run| - 1].slots[i].resizeCount
    decreases |run|
  {
    hide Evolves;
    if |run| > 1 {
      CountedStep(run[0], run[1], i);
      assert forall d | 0 <= d < |run[1..]| - 1 :: run[1..][d] == run[d + 1];
      StaysCounted(run[1..], i, if c == 0 then 0 else c - 1);
    }
  }

  lemma CountedStep(before: Table, after: Table, i: nat)
    requires Counted(before, i) && Evolves(before, after)
    ensures Counted(after, i) && |after.slots| == |before.slots|
    ensures before.slots[i].resizeCount <= after.slots[i].resizeCount <= before.slots[i].resizeCount + 1
  {
  }

  /** A slot's count passes every value between its first and its last. */
  lemma {:induction false} EveryCountIsReached(run: seq<Table>, i: nat, n: nat) returns (c: nat)
    requires ResetFree(run) && Counted(run[0], i) && Counted(run[|run| - 1], i)
    requires run[0].slots[i].resizeCount <= n <= run[|run| - 1].slots[i].resizeCount
    ensures c < |run| && i < |run[c].slots| && run[c].slots[i].resizeCount == n
    decreases |run|
  {
    hide Evolves;
    if run[0].slots[i].resizeCount == n {
      c := 0;
    } else {
      CountedStep(run[0], run[1], i);
      assert forall d | 0 <= d < |run[1..]| - 1 :: run[1..][d] == run[d + 1];
      c := EveryCountIsReached(run[1..], i, n);
      c := c + 1;
    }
  }

  /** A reset sets the count back.  When the slot has been taken again, a handle from before
      that is not used in between is told apart in every table of a run without another
      reset exactly if its count is 0 or above the last count of the slot: a count in
      between is reached, and then the handle passes for a live one. */
  lemma ResetLosesHandles(t: Table, h: ShmHandle, name: Name, size: nat, ptr: array<byte>, run: seq<Table>)
    requires h.IsValid() && h.handle < |t.slots| && name != "" && 0 < size < UINT32
    requires ResetFree(run) && run[0] == Rebuilt(Dropped(t, h.handle), h.handle, name, size, ptr)
    requires forall c | 0 <= c < |run| && Counted(run[c], h.handle) ::
               run[c].blocks[run[c].slots[h.handle].name] != h.ptr
    ensures h.handle < |run[|run| - 1].slots|
    ensures (forall c | 0 <= c < |run| :: ToldApart(run[c], h)) <==>
              h.resizeCount == 0 || h.resizeCount > run[|run| - 1].slots[h.handle].resizeCount
  {
    var i, last := h.handle, run[|run| - 1];
    assert Counted(run[0], i) && run[0].slots[i].resizeCount == 1;
    forall c: nat | c < |run|
      ensures Counted(run[c], i) && Counted(last, i)
      ensures run[c].slots[i].resizeCount <= last.slots[i].resizeCount
    {
      StaysCounted(run, i, c);
    }
    hide Evolves, ResetFree;
    if 1 <= h.resizeCount <= last.slots[i].resizeCount {
      var c := EveryCountIsReached(run, i, h.resizeCount);
      assert run[c].blocks[run[c].slots[i].name] != h.ptr;
      assert !ToldApart(run[c], h);
    }
  }

  /** A slot that is not in use is cleared, and no block has the empty name. */
  lemma InactiveSlot(t: Table, i: nat)
    requires Consistent(t) && i < NUM_BLOCKS && !t.slots[i].active
    ensures t.slots[i] == CLEARED && "" !in t.blocks && Dropped(t, i) == t
  {
    assert SlotOk(t, t.slots[i]);
    forall n | n in t.blocks
      ensures n != ""
    {
      BlocksAreNamed(t, n);
    }
    assert t.blocks - {""} == t.blocks;
  }

  lemma BlocksAreNamed(t: Table, name: Name)
    requires Consistent(t) && name in t.blocks
    ensures name != ""
  {
    var j: nat :| SlotOf(t, name, j);
    assert SlotOk(t, t.slots[j]);
  }

  /** A slot that is in use has its block; another is cleared. */
  lemma AnySlot(t: Table, i: nat)
    requires Consistent(t) && i < NUM_BLOCKS
    ensures var d := t.slots[i];
      && d.size <= d.capacity < UINT32
      && (d.active ==> d.name != "" && d.name in t.blocks && t.blocks[d.name].Length == d.capacity)
      && (!d.active ==> d == CLEARED && d.name !in t.blocks)
  {
    if t.slots[i].active {
      ActiveSlot(t, i);
    } else {
      InactiveSlot(t, i);
    }
  }

  /** A recorded size that fits leaves every slot in order. */
  lemma FittingKeeps(t: Table, i: nat, size: nat)
    requires Consistent(t) && i < NUM_BLOCKS && size <= t.slots[i].capacity
    ensures var u := Recorded(t, i, size, 0);
      Consistent(u) && Evolves(t, u) && OnlySlot(t, u, i, t.slots[i].name)
  {
    AnySlot(t, i);
    if t.slots[i].active {
      RecordedKeeps(t, i, size, 0);
    } else {
      assert Recorded(t, i, size, 0) == t;
    }
  }

  lemma NamelessIsOff(t: Table, i: nat, size: nat, ptr: array<byte>)
    requires Consistent(t) && i < NUM_BLOCKS && !t.slots[i].active
    ensures var u := Nameless(t, i, size, ptr); Evolves(t, u) && OnlySlot(t, u, i, "")
  {
    InactiveSlot(t, i);
    var u := Nameless(t, i, size, ptr);
    assert u.blocks - {""} == t.blocks - {""};
    forall j | 0 <= j < |t.slots| && t.slots[j].active
      ensures t.slots[j].name != ""
    {
      assert SlotOk(t, t.slots[j]);
    }
  }

  lemma BlockLost(t: Table, u: Table, i: nat, name: Name)
    requires i < |t.slots| && SlotOf(t, name, i) && u == t.(blocks := t.blocks - {name})
    ensures SlotOf(u, name, i) && OnlySlot(t, u, i, name)
  {
    assert u.blocks - {name} == t.blocks - {name};
  }

  lemma SlotEntered(t: Table, u: Table, i: nat, name: Name, size: nat)
    requires i < |t.slots|
    requires u == Entered(t, i, name, size)
    ensures SlotOf(u, name, i) && OnlySlot(t, u, i, name)
  {
  }

  // ---------------------------------------------------------------- the class

  class SharedMemoryBlock {
    const descriptors: seq<SharedMemoryBlockDescriptor>

    constructor ()
      ensures Distinct() && fresh(descriptors)
      ensures forall i | 0 <= i < NUM_BLOCKS :: descriptors[i].Value() == CLEARED
    {
      var all: seq<SharedMemoryBlockDescriptor> := [];
      for n := 0 to NUM_BLOCKS
        invariant |all| == n && fresh(all)
        invariant forall i, j | 0 <= i < j < n :: all[i] != all[j]
        invariant forall i | 0 <= i < n :: all[i].Value() == CLEARED
      {
        var d := new SharedMemoryBlockDescriptor();
        all := all + [d];
      }
      descriptors := all;
    }

    predicate Distinct() {
      && |descriptors| == NUM_BLOCKS
      && forall i, j | 0 <= i < j < NUM_BLOCKS :: descriptors[i] != descriptors[j]
    }

    /** The table the objects stand for. */
    function View(segment: Segment): (t: Table)
      reads segment, descriptors
      ensures |t.slots| == |descriptors| && t.blocks == segment.blocks
      ensures forall i | 0 <= i < |descriptors| :: t.slots[i] == descriptors[i].Value()
    {
      Table(seq(|descriptors|, i requires 0 <= i < |descriptors| reads descriptors => descriptors[i].Value()),
            segment.blocks)
    }

    ghost predicate Valid(segment: Segment)
      reads segment, descriptors
    {
      Distinct() && Consistent(View(segment))
    }

    /** The source asserts that the block is at least as long as the recorded size. */
    method ConnectBlock(segment: Segment, handle: nat) returns (h: ShmHandle)
      requires handle < |descriptors| && HasBlock(View(segment), handle)
      ensures h == Connected(View(segment), handle) && h.IsValid()
    {
      var ptr, length := segment.Find(descriptors[handle].name);
      assert length >= descriptors[handle].size;
      return ShmHandle(handle, descriptors[handle].resizeCount, ptr);
    }

    /** Only the slots of the name looked for have to have their blocks; whether the rest of
        the table is in order does not matter. */
    method FindHandle(segment: Segment, name: Name) returns (h: ShmHandle)
      requires Distinct()
      requires forall i: nat | SlotOf(View(segment), name, i) :: HasBlock(View(segment), i)
      ensures h.IsValid() <==> Owned(View(segment), name)
      ensures h.IsValid() ==> SlotOf(View(segment), name, h.handle) && name in segment.blocks
      ensures h.IsValid() ==> h == Connected(View(segment), h.handle)
      ensures !h.IsValid() ==> h == INVALID
    {
      for i := 0 to NUM_BLOCKS
        invariant forall j | 0 <= j < i :: !SlotOf(View(segment), name, j)
      {
        if !descriptors[i].active {
          continue;
        }
        if descriptors[i].MatchName(name) {
          assert SlotOf(View(segment), name, i);
          h := ConnectBlock(segment, i);
          return;
        }
      }
      h := INVALID;
    }

    /** The slot the topic already has: its block is built anew if it is too short.  False
        is bad_alloc, which leaves the slot without a block. */
    method TakeBack(segment: Segment, i: nat, size: nat, available: bool) returns (h: ShmHandle, ok: bool)
      requires Valid(segment) && i < NUM_BLOCKS && descriptors[i].active && size < UINT32
      modifies segment, descriptors
      ensures var before := old(View(segment)); var name := before.slots[i].name;
        && name in before.blocks
        && (ok <==> size <= before.blocks[name].Length || available)
        && (!ok ==> View(segment) == before.(blocks := before.blocks - {name}) && h == INVALID)
        && (ok && size <= before.blocks[name].Length ==>
              View(segment) == Recorded(before, i, size, before.blocks[name].Length))
        && (ok && size > before.blocks[name].Length ==>
              h.IsValid() && fresh(h.ptr) && AllZero(h.ptr[..])
              && View(segment) == Rebuilt(before, i, name, size, h.ptr))
      ensures ok ==> Valid(segment) && Reached(segment, old(View(segment)), h, i, old(descriptors[i].name))
    {
      hide Consistent, Evolves, OnlySlot;
      ghost var before, name := View(segment), descriptors[i].name;
      ActiveSlot(before, i);
      var ptr, length := segment.Find(descriptors[i].name);
      if size > length {
        segment.Destroy(descriptors[i].name);
        ptr := segment.FindOrConstruct(descriptors[i].name, size, available);
        if ptr == null {
          return INVALID, false;
        }
        descriptors[i].RecordNewSize(size, size);
        assert View(segment) == Rebuilt(before, i, name, size, ptr);
        RebuiltKeeps(before, i, name, size, ptr);
      } else {
        descriptors[i].RecordNewSize(size, length);
        assert View(segment) == Recorded(before, i, size, length);
        RecordedKeeps(before, i, size, length);
      }
      return ShmHandle(i, descriptors[i].resizeCount, ptr), true;
    }

    /** The slot is entered before the block is constructed.  False is bad_alloc, which
        leaves it without a block. */
    method TakeFree(segment: Segment, i: nat, name: Name, size: nat, available: bool) returns (h: ShmHandle, ok: bool)
      requires Valid(segment) && i < NUM_BLOCKS && !descriptors[i].active && size < UINT32
      requires name != "" && name !in segment.blocks
      modifies segment, descriptors
      ensures ok <==> available
      ensures var before := old(View(segment));
        && (!ok ==> h == INVALID && View(segment) == Entered(before, i, name, size))
        && (!ok ==> name !in segment.blocks && SlotOf(View(segment), name, i) && View(segment).slots[i].size == size
                    && View(segment).slots[i].capacity == size)
        && (ok ==> h.IsValid() && fresh(h.ptr) && AllZero(h.ptr[..])
                   && View(segment) == Rebuilt(before, i, name, size, h.ptr))
      ensures ok ==> Valid(segment) && Reached(segment, old(View(segment)), h, i, name)
    {
      ghost var before := View(segment);
      assert SlotOk(before, before.slots[i]);
      hide Consistent, Evolves, OnlySlot;
      descriptors[i].Allocate(name);
      descriptors[i].RecordNewSize(size, size);
      var ptr := segment.FindOrConstruct(descriptors[i].name, size, available);
      if ptr == null {
        return INVALID, false;
      }
      assert View(segment) == Rebuilt(before, i, name, size, ptr);
      RebuiltKeeps(before, i, name, size, ptr);
      return ShmHandle(i, descriptors[i].resizeCount, ptr), true;
    }

    /** Slot i is the topic's, the handle is the live one, and nothing else has changed. */
    ghost predicate Reached(segment: Segment, before: Table, h: ShmHandle, i: nat, name: Name)
      reads segment, descriptors
    {
      && h.handle == i && SlotOf(View(segment), name, i) && name in segment.blocks
      && h == Connected(View(segment), i)
      && Evolves(before, View(segment)) && OnlySlot(before, View(segment), i, name)
    }

    /** A topic that has a slot gets its block back, grown if it is too short; another takes
        the first free slot; only a full table refuses.  Without memory for a new block the
        exception leaves a slot that is active and has no block. */
    method AllocateBlock(segment: Segment, name: Name, size: nat, available: bool)
      returns (h: ShmHandle, thrown: bool)
      requires Valid(segment) && name != "" && size < UINT32
      modifies segment, descriptors
      ensures fresh(segment.blocks.Values - old(segment.blocks.Values))
      ensures thrown <==>
        !available && (if name in old(segment.blocks) then size > old(segment.blocks)[name].Length
                       else |old(segment.blocks)| < NUM_BLOCKS)
      ensures thrown ==> h == INVALID && name !in segment.blocks
      ensures thrown ==> LeftHalfMade(old(View(segment)), View(segment), name)
      ensures !thrown ==> Valid(segment)
      ensures !thrown ==> (h.IsValid() <==> name in old(segment.blocks) || |old(segment.blocks)| < NUM_BLOCKS)
      ensures !thrown && !h.IsValid() ==> h == INVALID && View(segment) == old(View(segment))
      ensures h.IsValid() ==> Reached(segment, old(View(segment)), h, h.handle, name)
      ensures h.IsValid() && name in old(segment.blocks) && size <= old(segment.blocks)[name].Length ==>
                View(segment) == Recorded(old(View(segment)), h.handle, size, old(segment.blocks)[name].Length)
      ensures h.IsValid() && (name in old(segment.blocks) ==> size > old(segment.blocks)[name].Length) ==>
                && fresh(h.ptr) && AllZero(h.ptr[..])
                && View(segment) == Rebuilt(old(View(segment)), h.handle, name, size, h.ptr)
      ensures h.IsValid() && name !in old(segment.blocks) ==>
                && !old(View(segment)).slots[h.handle].active
                && forall j | 0 <= j < h.handle :: old(View(segment)).slots[j].active
    {
      hide Consistent, Evolves, OnlySlot;
      ghost var before := View(segment);
      FullExactly(before);
      var ok;
      for i := 0 to NUM_BLOCKS
        invariant View(segment) == before
        invariant forall j | 0 <= j < i :: !SlotOf(before, name, j)
      {
        if !descriptors[i].active {
          continue;
        }
        if descriptors[i].MatchName(name) {
          h, ok := TakeBack(segment, i, size, available);
          if !ok {
            BlockLost(before, View(segment), i, name);
          }
          thrown := !ok;
          return;
        }
      }
      NotFound(before, name);
      for i := 0 to NUM_BLOCKS
        invariant View(segment) == before
        invariant forall j | 0 <= j < i :: before.slots[j].active
      {
        if descriptors[i].active {
          continue;
        }
        h, ok := TakeFree(segment, i, name, size, available);
        if !ok {
          SlotEntered(before, View(segment), i, name, size);
        }
        thrown := !ok;
        return;
      }
      h, thrown := INVALID, false;
    }

    /** The block is built anew with the length asked for; null is bad_alloc, for which the
        slot is given up. */
    method Grow(segment: Segment, i: nat, size: nat, available: bool) returns (ptr: array?<byte>)
      requires Valid(segment) && i < NUM_BLOCKS && descriptors[i].capacity < size < UINT32
      modifies segment, descriptors
      ensures ptr != null <==> available
      ensures var before := old(View(segment)); var name := before.slots[i].name;
        && (before.slots[i].active || ptr == null ==> Valid(segment))
        && (ptr == null ==> View(segment) == Dropped(before, i))
        && (ptr != null ==>
              View(segment) == (if before.slots[i].active then Rebuilt(before, i, name, size, ptr)
                                else Nameless(before, i, size, ptr))
              && Evolves(before, View(segment)) && fresh(ptr) && AllZero(ptr[..]))
        && OnlySlot(before, View(segment), i, name)
    {
      hide Consistent, Evolves, OnlySlot;
      ghost var before := View(segment);
      AnySlot(before, i);
      segment.Destroy(descriptors[i].name);
      ptr := segment.FindOrConstruct(descriptors[i].name, size, available);
      if ptr != null {
        descriptors[i].RecordNewSize(size, size);
        if before.slots[i].active {
          assert View(segment) == Rebuilt(before, i, before.slots[i].name, size, ptr);
          RebuiltKeeps(before, i, before.slots[i].name, size, ptr);
        } else {
          assert View(segment) == Nameless(before, i, size, ptr);
          NamelessIsOff(before, i, size, ptr);
        }
      } else {
        descriptors[i].Reset();
        assert View(segment) == Dropped(before, i);
        DroppedKeeps(before, i);
      }
    }

    /** First brings a stale handle up to date, then grows the block if it is too short.
        When the segment has no room for the longer block the topic loses its slot. */
    method ReallocateBlock(segment: Segment, shm: ShmHandle, size: nat, available: bool) returns (r: ShmHandle)
      requires Valid(segment) && size < UINT32 && (shm.IsValid() ==> shm.handle < NUM_BLOCKS)
      modifies segment, descriptors
      ensures !shm.IsValid() || old(descriptors[shm.handle].active) || size == 0 || !available ==> Valid(segment)
      ensures old(HandleOk(View(segment), shm)) ==> HandleOk(View(segment), r)
      ensures fresh(segment.blocks.Values - old(segment.blocks.Values))
      ensures !shm.IsValid() ==> r == shm && View(segment) == old(View(segment))
      ensures shm.IsValid() ==> Reallocates(old(View(segment)), shm, size, available, View(segment), r)
      ensures shm.IsValid() && r.IsValid() && size > old(descriptors[shm.handle].capacity) ==>
        fresh(r.ptr) && AllZero(r.ptr[..])
      ensures shm.IsValid() ==>
        OnlySlot(old(View(segment)), View(segment), shm.handle, old(descriptors[shm.handle].name))
      ensures shm.IsValid() && r.IsValid() ==> Evolves(old(View(segment)), View(segment))
    {
      hide Consistent, Evolves, OnlySlot;
      r := shm;
      if !shm.IsValid() {
        return;
      }
      ghost var before := View(segment);
      var i := shm.handle;
      AnySlot(before, i);
      if r.resizeCount != descriptors[i].resizeCount {
        var ptr, _ := segment.Find(descriptors[i].name);
        r := r.(resizeCount := descriptors[i].resizeCount, ptr := ptr);
      }
      assert r == Refreshed(before, shm);
      if size > descriptors[i].capacity {
        var ptr := Grow(segment, i, size, available);
        if ptr != null {
          r := r.(ptr := ptr, resizeCount := descriptors[i].resizeCount);
        } else {
          r := INVALID;
        }
      } else {
        descriptors[i].RecordNewSize(size, 0);
        assert View(segment) == Recorded(before, i, size, 0);
        FittingKeeps(before, i, size);
      }
    }

    /** The slot's mutex is taken before the handle is looked at, so the index has to be
        one of the 100 even for a handle without a pointer. */
    method ResetBlock(segment: Segment, shm: ShmHandle) returns (r: ShmHandle)
      requires Valid(segment) && shm.handle < NUM_BLOCKS
      modifies segment, descriptors
      ensures Valid(segment)
      ensures shm.IsValid() ==> r == INVALID && View(segment) == Dropped(old(View(segment)), shm.handle)
      ensures !shm.IsValid() ==> r == shm && View(segment) == old(View(segment))
    {
      r := shm;
      if shm.IsValid() {
        ghost var before := View(segment);
        segment.Destroy(descriptors[shm.handle].name);
        descriptors[shm.handle].Reset();
        r := INVALID;
        assert View(segment) == Dropped(before, shm.handle);
        DroppedKeeps(before, shm.handle);
      }
    }

    /** Empties the table. */
    method ResetAllBlocks(segment: Segment)
      requires Valid(segment)
      modifies segment, descriptors
      ensures Valid(segment) && segment.blocks == map[]
      ensures forall i | 0 <= i < NUM_BLOCKS :: View(segment).slots[i] == CLEARED
    {
      hide OnlySlot, Consistent;
      for i := 0 to NUM_BLOCKS
        invariant Valid(segment)
        invariant forall j | 0 <= j < i :: !View(segment).slots[j].active
      {
        if !descriptors[i].active {
          continue;
        }
        ghost var before := View(segment);
        segment.Destroy(descriptors[i].name);
        descriptors[i].Reset();
        assert View(segment) == Dropped(before, i);
        DroppedKeeps(before, i);
      }
      NoSlotNoBlock(View(segment));
    }

    /** Writes the message into the slot's block through a stream of the recorded size;
        false is the overrun. */
    method Serialize(segment: Segment, dest: ShmHandle, msg: RawMessage) returns (r: ShmHandle, ok: bool)
      requires Valid(segment) && Accessible(View(segment), dest)
      requires msg.Valid() && (msg.value != null ==> msg.value != Target(View(segment), dest))
      modifies {Target(View(segment), dest)}
      ensures View(segment) == old(View(segment)) && Valid(segment)
      ensures r == Refreshed(View(segment), dest)
      ensures descriptors[dest.handle].active ==> r == Connected(View(segment), dest.handle)
      ensures msg.Content() == old(msg.Content())
      ensures ok <==> |Image(msg.Content())| <= descriptors[dest.handle].size
      ensures ok ==> r.IsValid() && |Image(msg.Content())| <= r.ptr.Length
                     && r.ptr[..|Image(msg.Content())|] == Image(msg.Content())
      ensures r.IsValid() ==> descriptors[dest.handle].size <= r.ptr.Length
      ensures r.IsValid() ==>
        var k := if ok then |Image(msg.Content())| else if descriptors[dest.handle].size >= 8 then 8 else 0;
        k <= r.ptr.Length && r.ptr[..] == Image(msg.Content())[..k] + old(r.ptr[..])[k..]
    {
      hide Consistent, Image, WroteOver, View;
      r := Refresh(segment, dest);
      var data := DataOf(r);
      ghost var was := data[..];
      var out := new Stream(data, descriptors[r.handle].size);
      ghost var k;
      ok, k := msg.Write(out);
      WroteFront(was, data[..], out.end, out.pos, Image(msg.Content()), ok, k);
    }

    /** The bytes a stream is laid over: without a block there are none. */
    method DataOf(h: ShmHandle) returns (data: array<byte>)
      ensures if h.IsValid() then data == h.ptr else fresh(data) && data.Length == 0
    {
      if h.ptr == null {
        data := new byte[0];
      } else {
        data := h.ptr;
      }
    }

    /** The part serialize and deserialize share: a stale handle is looked up again. */
    method Refresh(segment: Segment, shm: ShmHandle) returns (r: ShmHandle)
      requires Valid(segment) && Accessible(View(segment), shm)
      ensures r == Refreshed(View(segment), shm)
      ensures descriptors[shm.handle].active ==> r == Connected(View(segment), shm.handle)
      ensures var size := descriptors[shm.handle].size;
        size < UINT32 && if r.IsValid() then size <= r.ptr.Length else size == 0
    {
      hide Consistent;
      AnySlot(View(segment), shm.handle);
      r := shm;
      if shm.resizeCount != descriptors[shm.handle].resizeCount {
        var ptr, _ := segment.Find(descriptors[shm.handle].name);
        r := r.(resizeCount := descriptors[shm.handle].resizeCount, ptr := ptr);
      }
    }

    /** Reads the message from a stream over the recorded size; `available` is whether the
        message can get a buffer for the payload. */
    method Deserialize(segment: Segment, src: ShmHandle, msg: RawMessage, available: bool)
      returns (r: ShmHandle, ok: bool)
      requires Valid(segment) && Accessible(View(segment), src)
      requires msg.Valid() && (msg.value != null ==> msg.value != Target(View(segment), src))
      modifies msg, msg.value
      ensures msg.Valid() && (msg.value == old(msg.value) || fresh(msg.value))
      ensures View(segment) == old(View(segment)) && Valid(segment)
      ensures r == Refreshed(View(segment), src)
      ensures descriptors[src.handle].active ==> r == Connected(View(segment), src.handle)
      ensures ok <==> 8 <= descriptors[src.handle].size
      ensures !ok ==> msg.Content() == old(msg.Content())
      ensures ok ==> r.IsValid() && descriptors[src.handle].size <= r.ptr.Length
      ensures ok ==>
        var size := descriptors[src.handle].size;
        msg.Content() == FromImage(r.ptr[..if Granted(size - 8, old(msg.allocatedBytes), available) then size else 8])
    {
      hide Consistent, FromImage;
      r := Refresh(segment, src);
      var data := DataOf(r);
      ok := ReadFrom(data, descriptors[r.handle].size, msg, available);
    }
  }
}
