/** The step model against the class: a slot of the step model stands for a slot of the
    table together with the bytes of its block. */
module TableRefinement {
  import opened Bytes
  import opened Descriptor
  import opened ProtocolModel
  import opened ProtocolSolo
  import Raws = RawMessages
  import Tables = BlockTable
  import Topics = Publishing

  ghost predicate Represents(t: Tables.Table, i: nat, x: Slot)
    requires Topics.SlotSized(t, i)
    reads t.blocks[t.slots[i].name]
  {
    x.desc == t.slots[i] && x.block.bytes == t.blocks[t.slots[i].name][..]
  }

  /** A handle of the class and one of the step model with the same count, pointing at the
      live block or not alike. */
  predicate Alike(t: Tables.Table, i: nat, x: Slot, h: Tables.ShmHandle, g: Handle)
    requires Topics.SlotSized(t, i)
  {
    && h.IsValid() && h.handle == i && g.Handle?
    && h.resizeCount == g.resizeCount
    && (h.ptr == t.blocks[t.slots[i].name] <==> PointsAtLiveBlock(g, x))
  }

  /** The table after ReallocateBlock is the slot after reallocateBlock ran alone; every
      handle that could be told apart still is, and the publisher's is the live one. */
  lemma ReallocateRefines(t: Tables.Table, u: Tables.Table, i: nat, x: Slot, n: nat, ptr: array<byte>)
    requires Tables.Consistent(t) && i < Tables.NUM_BLOCKS && t.slots[i].active && n < UINT32
    requires Topics.SlotSized(t, i) && Represents(t, i, x)
    requires if n <= t.slots[i].capacity then u == Tables.Recorded(t, i, n, 0)
             else u == Tables.Rebuilt(t, i, t.slots[i].name, n, ptr)
                  && ptr.Length == n && AllZero(ptr[..]) && Tables.IsNew(t, ptr)
    ensures Topics.SlotSized(u, i) && Represents(u, i, Resized(x, n))
    ensures Alike(u, i, Resized(x, n), Tables.Connected(u, i), FreshHandle(Resized(x, n)))
    ensures forall h: Tables.ShmHandle, g: Handle |
              Alike(t, i, x, h, g) && g.ptr <= x.block.id && (n > t.slots[i].capacity ==> h.ptr != ptr) ::
              Alike(u, i, Resized(x, n), h, g)
  {
    hide Tables.Consistent;
    Tables.ActiveSlot(t, i);
    if n > t.slots[i].capacity {
      assert ptr[..] == Zeros(n);
    }
  }

  /** PublishMsg leaves the table as an uninterrupted publish of the step model leaves
      the slot. */
  method PublishIsARun(pub: Topics.SharedmemPublisher, msg: Raws.RawMessage, ghost v: View)
    requires pub.Valid() && pub.shmHandle.IsValid() && Topics.SlotSized(pub.View(), pub.shmHandle.handle)
    requires msg.Valid() && (msg.value != null ==> Tables.IsNew(pub.View(), msg.value))
    requires StoreOk(v.x) && Represents(pub.View(), pub.shmHandle.handle, v.x)
    requires At(v, RLock) && Unlocked(v) && NoClients(v) && Detectable(v)
    requires v.p.msg == Raws.Image(msg.Content()) && IsMessage(v.p.msg)
    modifies pub`shmHandle, pub.segment, pub.blockmgr.descriptors
    modifies pub.segment.blocks[pub.blockmgr.descriptors[pub.shmHandle.handle].name]
    ensures pub.blockmgr.Valid(pub.segment) && pub.shmHandle.IsValid()
    ensures pub.shmHandle.handle == old(pub.shmHandle).handle && Topics.SlotSized(pub.View(), pub.shmHandle.handle)
    ensures forall i :: Reaches(i, v, Published(v), {GlobalCond, DataCond})
    ensures Represents(pub.View(), pub.shmHandle.handle, Published(v).x)
  {
    hide Tables.Consistent, Tables.Evolves, Reaches, Alone, Raws.Image;
    forall i ensures Reaches(i, v, Published(v), {GlobalCond, DataCond}) {
      PublishAlone(i, v);
    }
    ghost var before, i := pub.View(), pub.shmHandle.handle;
    Tables.ActiveSlot(before, i);
    ghost var was := before.blocks[before.slots[i].name][..];
    Topics.Truncation(|v.p.msg|);
    assert Topics.Fits(msg.Content());
    var overrun := pub.PublishMsg(msg, true);
    Tables.ReallocatedHandle(before, old(pub.shmHandle), |v.p.msg|, true, pub.View(), pub.shmHandle);
    Tables.ActiveSlot(pub.View(), i);
    Overwrites(pub.shmHandle.ptr[..], v.p.msg, was);
    PublishedSlot(v);
    hide Published, Tables.HandleOk, Detectable, StoreOk, IsMessage;
  }

  /** The slot an uninterrupted publish leaves. */
  lemma PublishedSlot(v: View)
    requires StoreOk(v.x) && IsMessage(v.p.msg)
    ensures var x, y, m := v.x, Published(v).x, v.p.msg;
      if |m| <= x.desc.capacity
      then y.desc == RecordSize(x.desc, |m|, 0) && y.block.bytes == Overwritten(x.block.bytes, m, |m|)
      else y.desc == RecordSize(x.desc, |m|, |m|) && y.block.bytes == m
  {
  }

  /** A block that starts with m and goes on as before. */
  lemma Overwrites(b: Bytes, m: Bytes, was: Bytes)
    requires |m| <= |b| && b[..|m|] == m
    ensures |m| <= |was| == |b| && b[|m|..] == was[|m|..] ==> b == Overwritten(was, m, |m|)
    ensures |b| == |m| ==> b == m
  {
    assert b == b[..|m|] + b[|m|..];
  }

  /** Receive delivers what an uninterrupted receive of the step model delivers, and leaves a
      handle like the one that leaves. */
  method ReceiveIsARun(sub: Topics.SharedmemSubscriber, ghost v: View) returns (msg: Raws.RawMessage, ok: bool)
    requires sub.Valid() && sub.shmHandle.IsValid() && Topics.SlotSized(sub.View(), sub.shmHandle.handle)
    requires Represents(sub.View(), sub.shmHandle.handle, v.x)
    requires At(v, WRefresh) && Unlocked(v) && v.x.clients == 1 && v.gclients == 1 && Detectable(v)
    modifies sub`shmHandle
    ensures sub.Valid() && Topics.SlotSized(sub.View(), old(sub.shmHandle).handle)
    ensures v.x.desc.size <= |v.x.block.bytes| && fresh(msg) && msg.Valid()
    ensures forall i :: Reaches(i, v, Received(v), {GlobalCond, LockCond})
    ensures Alike(sub.View(), old(sub.shmHandle).handle, v.x, sub.shmHandle, Received(v).p.handle)
    ensures var got := Received(v).p.got;
      && got != [] && (ok <==> 8 <= |got[|got| - 1]|)
      && (ok ==> msg.Content() == Raws.FromImage(got[|got| - 1]))
  {
    hide Tables.Consistent, Reaches, Alone, Raws.FromImage;
    forall i ensures Reaches(i, v, Received(v), {GlobalCond, LockCond}) {
      ReceiveAlone(i, v);
    }
    msg, ok := sub.Receive(true);
  }

  /** FindHandle, for a topic that has its block, returns a handle like the one the step
      model's findHandle returns on the slot that stands for the topic's. */
  method FindIsARun(blockmgr: Tables.SharedMemoryBlock, segment: Tables.Segment, name: Name,
                    ghost v: View, ghost k: nat) returns (h: Tables.ShmHandle)
    requires blockmgr.Valid(segment) && Tables.SlotOf(blockmgr.View(segment), name, k)
    requires Topics.SlotSized(blockmgr.View(segment), k) && Represents(blockmgr.View(segment), k, v.x)
    requires At(v, FLock) && v.gowner.None? && v.gclients == 0
    ensures forall i :: Reaches(i, v, v.(p := Goto(v.p, Idle).(handle := FreshHandle(v.x))), {})
    ensures Alike(blockmgr.View(segment), k, v.x, h, FreshHandle(v.x))
  {
    hide Reaches, Alone;
    forall i ensures Reaches(i, v, v.(p := Goto(v.p, Idle).(handle := FreshHandle(v.x))), {}) {
      FindAlone(i, v);
    }
    Tables.EveryTopicHasItsBlock(blockmgr.View(segment), name);
    h := blockmgr.FindHandle(segment, name);
    Topics.OneSlotPerTopic(blockmgr.View(segment), name, h.handle, k);
  }
}
