/** The publish and receive paths over the block table: a publisher whose messages may
    have any length, and subscribers whose handles may be older than the block. */
module Publishing {
  import opened Bytes
  import opened Descriptor
  import opened RawMessages
  import opened BlockTable

  /** A message is sent whole exactly when its length is a 32-bit number. */
  predicate Fits(r: Raw) {
    |Image(r)| < UINT32
  }

  predicate SlotSized(t: Table, i: nat) {
    && i < |t.slots| && t.slots[i].name in t.blocks
    && t.slots[i].size <= t.blocks[t.slots[i].name].Length
  }

  /** The bytes of slot i a reader gets to see: the recorded size, not the whole block. */
  function SlotBytes(t: Table, i: nat): Bytes
    requires SlotSized(t, i)
    reads t.blocks[t.slots[i].name]
  {
    t.blocks[t.slots[i].name][..t.slots[i].size]
  }

  /** The topic of a handle carries message r. */
  ghost predicate Carries(t: Table, h: ShmHandle, r: Raw)
    requires Consistent(t) && h.IsValid() && HandleOk(t, h)
    reads t.blocks[t.slots[h.handle].name]
  {
    ActiveSlot(t, h.handle);
    SlotBytes(t, h.handle) == Image(r)
  }

  lemma Truncation(n: nat)
    ensures n <= n % UINT32 <==> n < UINT32
    ensures n < UINT32 ==> n % UINT32 == n
  {
  }

  class SharedmemPublisher {
    const segment: Segment
    const blockmgr: SharedMemoryBlock
    const topic: Name
    var shmHandle: ShmHandle
    var firstRun: bool

    constructor (segment: Segment, blockmgr: SharedMemoryBlock, topic: Name)
      ensures this.segment == segment && this.blockmgr == blockmgr && this.topic == topic
      ensures firstRun && shmHandle == INVALID
    {
      this.segment, this.blockmgr, this.topic := segment, blockmgr, topic;
      firstRun, shmHandle := true, INVALID;
    }

    function View(): Table
      reads segment, blockmgr.descriptors
    {
      blockmgr.View(segment)
    }

    ghost predicate Valid()
      reads this, segment, blockmgr.descriptors
    {
      && blockmgr.Valid(segment) && topic != ""
      && HandleOk(View(), shmHandle)
      && (firstRun ==> shmHandle == INVALID)
    }

    /** The topic gets a slot of 16 bytes, unless 100 others have one; `attached` is whether
        the segment and the manager in it were found.  When a block has to be made and there
        is no memory, the publisher stays unconnected and the topic is left with a slot and
        no block. */
    method Initialise(attached: bool, available: bool)
      requires Valid() && firstRun
      modifies `shmHandle, segment, blockmgr.descriptors
      ensures var starved := attached && !available && old(NeedsBlock());
        && (!starved ==> blockmgr.Valid(segment) && HandleOk(View(), shmHandle))
        && (starved ==> topic !in segment.blocks)
        && (starved ==> LeftHalfMade(old(View()), View(), topic))
        && (shmHandle.IsValid() <==>
              attached && !starved && (topic in old(segment.blocks) || |old(segment.blocks)| < NUM_BLOCKS))
        && (!starved && !shmHandle.IsValid() ==> View() == old(View()))
      ensures !shmHandle.IsValid() ==> shmHandle == INVALID
      ensures shmHandle.IsValid() ==>
        && SlotOf(View(), topic, shmHandle.handle) && Evolves(old(View()), View())
        && shmHandle == Connected(View(), shmHandle.handle)
        && View().slots[shmHandle.handle].size == 16
        && View().slots[shmHandle.handle].capacity == old(FirstRoom())
        && OnlySlot(old(View()), View(), shmHandle.handle, topic)
        && (old(View()).slots[shmHandle.handle].active ==> old(View()).slots[shmHandle.handle].name == topic)
        && (fresh(shmHandle.ptr) || (topic in old(segment.blocks) && shmHandle.ptr == old(segment.blocks)[topic]))
      ensures fresh(segment.blocks.Values - old(segment.blocks.Values))
    {
      hide Consistent, Evolves, OnlySlot, LeftHalfMade;
      if attached {
        var thrown;
        shmHandle, thrown := blockmgr.AllocateBlock(segment, topic, 16, available);
        if shmHandle.IsValid() {
          KeepsItsTopic(old(View()), View(), shmHandle.handle, topic);
        }
      }
    }

    /** How long the block is that the first publish leaves the topic with. */
    ghost function FirstRoom(): nat
      reads segment
    {
      if topic in segment.blocks && segment.blocks[topic].Length > 16 then segment.blocks[topic].Length else 16
    }

    /** The blocks a publish may write to: the handle's and the topic's. */
    ghost function OwnBlocks(): set<array<byte>>
      reads this, segment, blockmgr.descriptors
    {
      (if topic in segment.blocks then {segment.blocks[topic]} else {})
      + if shmHandle.handle < |blockmgr.descriptors|
           && blockmgr.descriptors[shmHandle.handle].name in segment.blocks
        then {segment.blocks[blockmgr.descriptors[shmHandle.handle].name]} else {}
    }

    /** The first publish has to make a block and there is no memory for it. */
    predicate Starves(attached: bool, granted: bool)
      reads this, segment
    {
      firstRun && attached && !granted && NeedsBlock()
    }

    /** Connecting makes a block: the topic's own is too short, or a slot is free for it. */
    predicate NeedsBlock()
      reads segment
    {
      if topic in segment.blocks then 16 > segment.blocks[topic].Length else |segment.blocks| < NUM_BLOCKS
    }

    /** publish_msg: reallocate to the message's 32-bit length, then serialize; true is
        the overrun exception.  A message that fits is sent whole into a stream it fills
        exactly, or the topic loses its slot for want of memory; one that does not fit
        always overruns. */
    method PublishMsg(msg: RawMessage, available: bool) returns (overrun: bool)
      requires msg.Valid() && (shmHandle.IsValid() ==> Valid() && (msg.value != null ==> IsNew(View(), msg.value)))
      modifies `shmHandle, segment, blockmgr.descriptors
      modifies if shmHandle.IsValid() then {segment.blocks[blockmgr.descriptors[shmHandle.handle].name]} else {}
      ensures old(shmHandle).IsValid() ==> blockmgr.Valid(segment) && HandleOk(View(), shmHandle)
      ensures msg.Content() == old(msg.Content())
      ensures fresh(segment.blocks.Values - old(segment.blocks.Values))
      ensures !old(shmHandle).IsValid() ==> shmHandle == old(shmHandle) && View() == old(View())
      ensures !shmHandle.IsValid() ==> !overrun
      ensures old(shmHandle).IsValid() ==> old(blockmgr.descriptors[shmHandle.handle].name) in old(segment.blocks)
      ensures old(shmHandle).IsValid() ==>
        (shmHandle.IsValid() <==>
           available || |Image(msg.Content())| % UINT32 <= old(blockmgr.descriptors[shmHandle.handle].capacity))
      ensures old(shmHandle).IsValid() && !shmHandle.IsValid() ==>
        && shmHandle == INVALID && !blockmgr.descriptors[old(shmHandle).handle].active
        && old(blockmgr.descriptors[shmHandle.handle].name) !in segment.blocks
      ensures old(shmHandle).IsValid() ==>
        OnlySlot(old(View()), View(), old(shmHandle).handle, old(blockmgr.descriptors[shmHandle.handle].name))
      ensures old(shmHandle).IsValid() ==>
        Reallocates(old(View()), old(shmHandle), |Image(msg.Content())| % UINT32, available, View(), shmHandle)
      ensures shmHandle.IsValid() ==> shmHandle.handle == old(shmHandle).handle && Evolves(old(View()), View())
      ensures shmHandle.IsValid() ==> (overrun <==> !Fits(msg.Content()))
      ensures shmHandle.IsValid() && !overrun ==> Carries(View(), shmHandle, msg.Content())
      ensures shmHandle.IsValid() ==>
        var n := |Image(msg.Content())| % UINT32;
        var block := old(segment.blocks[blockmgr.descriptors[shmHandle.handle].name]);
        n <= block.Length ==> shmHandle.ptr == block && block[n..] == old(block[n..])
    {
      hide Consistent, Evolves, OnlySlot, Image, Carries, Fits, Reallocates, SharedMemoryBlock.View;
      overrun := false;
      var length := msg.SerializedLength();
      if !shmHandle.IsValid() {
        return;
      }
      Resize(length, available);
      if shmHandle.IsValid() {
        overrun := Send(msg);
      }
    }

    /** The first half of publish_msg: the slot is sized, and the handle is on its live block,
        which is the one from before or a new one. */
    method Resize(length: nat, available: bool)
      requires Valid() && shmHandle.IsValid() && length < UINT32
      modifies `shmHandle, segment, blockmgr.descriptors
      ensures blockmgr.Valid(segment) && HandleOk(View(), shmHandle)
      ensures fresh(segment.blocks.Values - old(segment.blocks.Values))
      ensures old(blockmgr.descriptors[shmHandle.handle].name) in old(segment.blocks)
      ensures Reallocates(old(View()), old(shmHandle), length, available, View(), shmHandle)
      ensures shmHandle.IsValid() <==> available || length <= old(blockmgr.descriptors[shmHandle.handle].capacity)
      ensures !shmHandle.IsValid() ==>
        && shmHandle == INVALID && !blockmgr.descriptors[old(shmHandle).handle].active
        && old(blockmgr.descriptors[shmHandle.handle].name) !in segment.blocks
      ensures OnlySlot(old(View()), View(), old(shmHandle).handle, old(blockmgr.descriptors[shmHandle.handle].name))
      ensures shmHandle.IsValid() ==>
        var i, block := shmHandle.handle, old(segment.blocks[blockmgr.descriptors[shmHandle.handle].name]);
        && i == old(shmHandle).handle && i < NUM_BLOCKS && Evolves(old(View()), View())
        && blockmgr.descriptors[i].name in segment.blocks && shmHandle == Connected(View(), i)
        && blockmgr.descriptors[i].size == length
        && (if length <= block.Length then shmHandle.ptr == block else fresh(shmHandle.ptr))
    {
      hide Consistent, Evolves, OnlySlot;
      ghost var before := View();
      ActiveSlot(before, shmHandle.handle);
      shmHandle := blockmgr.ReallocateBlock(segment, shmHandle, length, available);
      ReallocatedHandle(before, old(shmHandle), length, available, View(), shmHandle);
    }

    /** The second half of publish_msg, on a slot sized for the message. */
    method Send(msg: RawMessage) returns (overrun: bool)
      requires Valid() && shmHandle.IsValid() && shmHandle == Connected(View(), shmHandle.handle)
      requires msg.Valid() && msg.value != shmHandle.ptr
      requires blockmgr.descriptors[shmHandle.handle].size == |Image(msg.Content())| % UINT32
      modifies `shmHandle, shmHandle.ptr
      ensures View() == old(View()) && shmHandle == old(shmHandle)
      ensures blockmgr.Valid(segment) && HandleOk(View(), shmHandle) && msg.Content() == old(msg.Content())
      ensures overrun <==> !Fits(msg.Content())
      ensures !overrun ==> Carries(View(), shmHandle, msg.Content())
      ensures var n := blockmgr.descriptors[shmHandle.handle].size;
              shmHandle.ptr[n..] == old(shmHandle.ptr[n..])
    {
      hide Consistent, Image;
      ActiveSlot(View(), shmHandle.handle);
      Truncation(|Image(msg.Content())|);
      var ok;
      shmHandle, ok := blockmgr.Serialize(segment, shmHandle, msg);
      overrun := !ok;
    }

    /** The first publish connects the publisher, or leaves it unconnected for good; `granted`
        is whether there is memory for a first block, `available` for a longer one. */
    method Publish(msg: RawMessage, attached: bool, granted: bool, available: bool) returns (overrun: bool)
      requires Valid() && msg.Valid() && (msg.value != null ==> IsNew(View(), msg.value))
      modifies this, segment, blockmgr.descriptors, OwnBlocks()
      ensures !firstRun && (!old(Starves(attached, granted)) ==> Valid())
      ensures old(Starves(attached, granted)) ==>
        shmHandle == INVALID && topic !in segment.blocks && LeftHalfMade(old(View()), View(), topic)
      ensures msg.Content() == old(msg.Content())
      ensures shmHandle.IsValid() ==> (overrun <==> !Fits(msg.Content()))
      ensures !shmHandle.IsValid() ==> !overrun
      ensures shmHandle.IsValid() && !overrun ==> Carries(View(), shmHandle, msg.Content())
      ensures fresh(segment.blocks.Values - old(segment.blocks.Values))
      ensures old(firstRun) ==>
        (shmHandle.IsValid() <==>
           && attached && !old(Starves(attached, granted))
           && (topic in old(segment.blocks) || |old(segment.blocks)| < NUM_BLOCKS)
           && (available || |Image(msg.Content())| % UINT32 <= old(FirstRoom())))
      ensures old(firstRun) && !old(Starves(attached, granted)) ==> OnlyTopic(old(View()), View(), topic)
      ensures !old(firstRun) && old(shmHandle).IsValid() ==>
        var i, n := old(shmHandle).handle, |Image(msg.Content())| % UINT32;
        && (shmHandle.IsValid() <==> available || n <= old(View()).slots[i].capacity)
        && Reallocates(old(View()), old(shmHandle), n, available, View(), shmHandle)
        && OnlySlot(old(View()), View(), i, old(View()).slots[i].name)
      ensures !old(firstRun) && !old(shmHandle).IsValid() ==> View() == old(View()) && shmHandle == old(shmHandle)
    {
      hide Consistent, Evolves, OnlySlot, Image, Carries, Fits, IsNew, Reallocates, LeftHalfMade;
      hide HandleOk, FirstRoom, SharedMemoryBlock.View;
      ConnectOnce(attached, granted, msg);
      ghost var first, i := View(), shmHandle.handle;
      overrun := PublishMsg(msg, available);
      if old(firstRun && !Starves(attached, granted)) && first != old(View()) {
        OnlySlotTwice(old(View()), first, View(), i, topic);
      }
    }

    method ConnectOnce(attached: bool, granted: bool, msg: RawMessage)
      requires Valid() && (msg.value != null ==> IsNew(View(), msg.value))
      modifies this, segment, blockmgr.descriptors
      ensures !firstRun && (!old(Starves(attached, granted)) ==> Valid())
      ensures old(Starves(attached, granted)) ==>
        shmHandle == INVALID && topic !in segment.blocks && LeftHalfMade(old(View()), View(), topic)
      ensures msg.value != null ==> IsNew(View(), msg.value)
      ensures fresh(segment.blocks.Values - old(segment.blocks.Values))
      ensures old(firstRun) ==>
        (shmHandle.IsValid() <==>
           attached && !old(Starves(attached, granted))
           && (topic in old(segment.blocks) || |old(segment.blocks)| < NUM_BLOCKS))
      ensures old(firstRun) && shmHandle.IsValid() ==>
        && SlotOf(View(), topic, shmHandle.handle) && View().slots[shmHandle.handle].capacity == old(FirstRoom())
        && OnlySlot(old(View()), View(), shmHandle.handle, topic)
        && (old(View()).slots[shmHandle.handle].active ==> old(View()).slots[shmHandle.handle].name == topic)
      ensures old(firstRun) && !old(Starves(attached, granted)) && !shmHandle.IsValid() ==> View() == old(View())
      ensures shmHandle.IsValid() ==>
        && shmHandle.handle < |blockmgr.descriptors| && blockmgr.descriptors[shmHandle.handle].name in segment.blocks
        && (var block := segment.blocks[blockmgr.descriptors[shmHandle.handle].name];
            fresh(block) || block in old(OwnBlocks()))
      ensures !shmHandle.IsValid() ==> shmHandle == INVALID || shmHandle == old(shmHandle)
      ensures !old(firstRun) ==> shmHandle == old(shmHandle) && View() == old(View())
    {
      hide Consistent, Evolves, OnlySlot, LeftHalfMade;
      if shmHandle.IsValid() {
        ActiveSlot(View(), shmHandle.handle);
      }
      if firstRun {
        Initialise(attached, granted);
        firstRun := false;
      }
    }
  }

  class SharedmemSubscriber {
    const segment: Segment
    const blockmgr: SharedMemoryBlock
    const topic: Name
    var shmHandle: ShmHandle

    constructor (segment: Segment, blockmgr: SharedMemoryBlock, topic: Name)
      ensures this.segment == segment && this.blockmgr == blockmgr && this.topic == topic
      ensures shmHandle == INVALID
    {
      this.segment, this.blockmgr, this.topic, shmHandle := segment, blockmgr, topic, INVALID;
    }

    function View(): Table
      reads segment, blockmgr.descriptors
    {
      blockmgr.View(segment)
    }

    ghost predicate Valid()
      reads this, segment, blockmgr.descriptors
    {
      blockmgr.Valid(segment) && HandleOk(View(), shmHandle)
    }

    /** A subscriber that is not connected yet connects exactly if the segment and the manager
        in it are found and the topic has a block. */
    method StartReceiving(attached: bool) returns (ok: bool)
      requires Valid()
      modifies `shmHandle
      ensures Valid()
      ensures ok == shmHandle.IsValid()
      ensures old(shmHandle).IsValid() ==> shmHandle == old(shmHandle)
      ensures !old(shmHandle).IsValid() ==> (ok <==> attached && topic in segment.blocks)
      ensures !old(shmHandle).IsValid() && ok ==>
        SlotOf(View(), topic, shmHandle.handle) && shmHandle == Connected(View(), shmHandle.handle)
    {
      hide Consistent;
      if !shmHandle.IsValid() && attached {
        EveryTopicHasItsBlock(View(), topic);
        shmHandle := blockmgr.FindHandle(segment, topic);
      }
      ok := shmHandle.IsValid();
    }

    /** One turn of the receive thread once data has been signalled: the message is what
        the slot's bytes say, however old the handle; without a buffer for the payload it
        is the timestamp alone; false is a slot too short for that. */
    method Receive(available: bool) returns (msg: RawMessage, ok: bool)
      requires Valid() && shmHandle.IsValid()
      modifies `shmHandle
      ensures Valid() && shmHandle == Connected(View(), old(shmHandle).handle)
      ensures fresh(msg) && msg.Valid()
      ensures shmHandle.IsValid() && SlotSized(View(), shmHandle.handle)
      ensures ok <==> 8 <= |SlotBytes(View(), shmHandle.handle)|
      ensures !ok ==> msg.Content() == Raw(0, [])
      ensures ok ==>
        var b := SlotBytes(View(), shmHandle.handle);
        msg.Content() == FromImage(if available then b else b[..8])
    {
      hide Consistent;
      msg := new RawMessage();
      assert msg.allocatedBytes == 0;
      shmHandle, ok := blockmgr.Deserialize(segment, shmHandle, msg, available);
      ActiveSlot(View(), shmHandle.handle);
      if ok {
        var size := blockmgr.descriptors[shmHandle.handle].size;
        assert shmHandle.ptr[..size][..8] == shmHandle.ptr[..8];
      }
    }
  }

  /** A slot that carries a message yields it to any reader of its bytes. */
  lemma CarriedIsRead(t: Table, h: ShmHandle, r: Raw)
    requires Consistent(t) && h.IsValid() && HandleOk(t, h) && RawOk(r) && Carries(t, h, r)
    ensures SlotSized(t, h.handle) && |SlotBytes(t, h.handle)| >= 8
    ensures FromImage(SlotBytes(t, h.handle)) == r
  {
    ActiveSlot(t, h.handle);
    ReadBack(r, []);
    assert Image(r) + [] == Image(r);
  }

  lemma OneSlotPerTopic(t: Table, name: Name, i: nat, j: nat)
    requires Consistent(t) && SlotOf(t, name, i) && SlotOf(t, name, j)
    ensures i == j
  {
  }

  /** A publisher connects and a subscriber then looks the topic up: both hold the same
      handle, unless 100 other topics have all the slots. */
  method ConnectBoth(pub: SharedmemPublisher, sub: SharedmemSubscriber) returns (ok: bool)
    requires pub.Valid() && pub.firstRun
    requires pub.blockmgr == sub.blockmgr && pub.segment == sub.segment && pub.topic == sub.topic
    modifies pub`shmHandle, pub`firstRun, sub`shmHandle, pub.segment, pub.blockmgr.descriptors
    ensures pub.Valid() && sub.Valid()
    ensures ok <==> pub.topic in old(pub.segment.blocks) || |old(pub.segment.blocks)| < NUM_BLOCKS
    ensures ok ==> pub.shmHandle == sub.shmHandle && SlotOf(pub.View(), pub.topic, pub.shmHandle.handle)
    ensures !ok ==> !pub.shmHandle.IsValid() && !sub.shmHandle.IsValid()
  {
    hide Consistent, Evolves;
    pub.Initialise(true, true);
    pub.firstRun := false;
    sub.shmHandle := INVALID;
    ok := sub.StartReceiving(true);
    if ok && pub.shmHandle.IsValid() {
      OneSlotPerTopic(pub.View(), pub.topic, pub.shmHandle.handle, sub.shmHandle.handle);
    }
  }

  /** A message as an application composes it, in a buffer of its own. */
  method Compose(r: Raw, pub: SharedmemPublisher) returns (msg: RawMessage)
    requires RawOk(r) && pub.Valid()
    ensures fresh(msg) && msg.Valid() && msg.Content() == r
    ensures msg.value != null ==> IsNew(pub.View(), msg.value)
  {
    msg := new RawMessage();
    msg.timestamp := r.timestamp;
    var ok := msg.Allocate(|r.payload|, true);
    if |r.payload| > 0 {
      msg.CopyIn(r.payload);
    }
  }

  /** A reader of a slot that carries message r gets r, however old its handle. */
  method ReceiveCarried(sub: SharedmemSubscriber, ghost h: ShmHandle, ghost r: Raw) returns (got: Raw)
    requires sub.Valid() && sub.shmHandle.IsValid() && RawOk(r)
    requires h.IsValid() && HandleOk(sub.View(), h) && h.handle == sub.shmHandle.handle && Carries(sub.View(), h, r)
    modifies sub`shmHandle
    ensures got == r
  {
    hide Consistent, RawOk, FromImage, Image;
    var msg, _ := sub.Receive(true);
    CarriedIsRead(sub.View(), h, r);
    got := msg.Content();
  }

  /** A publish of a message that fits, memory permitting: the slot carries it, and whoever
      had a handle of any slot can go on using it. */
  method PublishFitting(pub: SharedmemPublisher, msg: RawMessage, ghost other: ShmHandle)
    requires pub.Valid() && pub.shmHandle.IsValid() && HandleOk(pub.View(), other)
    requires msg.Valid() && Fits(msg.Content()) && (msg.value != null ==> IsNew(pub.View(), msg.value))
    modifies pub`shmHandle, pub.segment, pub.blockmgr.descriptors, pub.segment.blocks.Values
    ensures pub.blockmgr.Valid(pub.segment) && HandleOk(pub.View(), pub.shmHandle) && pub.shmHandle.IsValid()
    ensures pub.shmHandle.handle == old(pub.shmHandle).handle && Evolves(old(pub.View()), pub.View())
    ensures fresh(pub.segment.blocks.Values - old(pub.segment.blocks.Values))
    ensures Carries(pub.View(), pub.shmHandle, old(msg.Content())) && HandleOk(pub.View(), other)
  {
    hide Consistent, Evolves, Carries, Image, Fits, Reallocates, IsNew, SharedMemoryBlock.View;
    ghost var before := pub.View();
    ActiveSlot(before, pub.shmHandle.handle);
    assert pub.segment.blocks[pub.blockmgr.descriptors[pub.shmHandle.handle].name] in pub.segment.blocks.Values;
    var _ := pub.PublishMsg(msg, true);
    HandleStep(other, before, pub.View());
  }

  /** One message published and read at once by a reader with any older handle. */
  method Exchange(pub: SharedmemPublisher, sub: SharedmemSubscriber, msg: RawMessage) returns (got: Raw)
    requires pub.Valid() && sub.Valid() && pub.segment == sub.segment && pub.blockmgr == sub.blockmgr
    requires pub.shmHandle.IsValid() && sub.shmHandle.IsValid() && pub.shmHandle.handle == sub.shmHandle.handle
    requires msg.Valid() && Fits(msg.Content()) && !pub.firstRun
    requires msg.value != null ==> IsNew(pub.View(), msg.value)
    modifies pub, sub, pub.segment, pub.blockmgr.descriptors, pub.segment.blocks.Values
    ensures pub.Valid() && pub.shmHandle.IsValid() && pub.shmHandle.handle == old(pub.shmHandle).handle
    ensures !pub.firstRun && Evolves(old(pub.View()), pub.View())
    ensures fresh(pub.segment.blocks.Values - old(pub.segment.blocks.Values))
    ensures got == old(msg.Content())
  {
    hide Consistent, Evolves, Carries, Image, Fits, RawOk, IsNew, HandleOk, SharedMemoryBlock.View;
    ghost var r := msg.Content();
    PublishFitting(pub, msg, sub.shmHandle);
    got := ReceiveCarried(sub, pub.shmHandle, r);
  }

  /** The same for a message composed on the spot; the reader's handle stays good. */
  method ExchangeRaw(pub: SharedmemPublisher, sub: SharedmemSubscriber, r: Raw) returns (got: Raw)
    requires pub.Valid() && sub.Valid() && pub.segment == sub.segment && pub.blockmgr == sub.blockmgr
    requires pub.shmHandle.IsValid() && sub.shmHandle.IsValid() && pub.shmHandle.handle == sub.shmHandle.handle
    requires RawOk(r) && Fits(r) && !pub.firstRun
    modifies pub, sub, pub.segment, pub.blockmgr.descriptors, pub.segment.blocks.Values
    ensures pub.Valid() && pub.shmHandle.IsValid() && pub.shmHandle.handle == old(pub.shmHandle).handle
    ensures !pub.firstRun && HandleOk(pub.View(), old(sub.shmHandle))
    ensures fresh(pub.segment.blocks.Values - old(pub.segment.blocks.Values))
    ensures got == r
  {
    hide Consistent, Evolves, HandleOk, IsNew, Fits, RawOk, SharedMemoryBlock.View;
    ghost var before := pub.View();
    var msg := Compose(r, pub);
    got := Exchange(pub, sub, msg);
    HandleStep(old(sub.shmHandle), before, pub.View());
  }

  /** Messages of any lengths, each read right after it was published by a reader that
      comes with the same old handle every time: all arrive as sent. */
  method PublishAndReceive(pub: SharedmemPublisher, sub: SharedmemSubscriber, messages: seq<Raw>)
    returns (received: seq<Raw>)
    requires pub.Valid() && sub.Valid() && pub.segment == sub.segment && pub.blockmgr == sub.blockmgr
    requires pub.shmHandle.IsValid() && sub.shmHandle.IsValid() && pub.shmHandle.handle == sub.shmHandle.handle
    requires forall i | 0 <= i < |messages| :: RawOk(messages[i]) && Fits(messages[i])
    modifies pub, sub, pub.segment, pub.blockmgr.descriptors, pub.segment.blocks.Values
    ensures received == messages
  {
    hide Consistent, Evolves, HandleOk, IsNew, Fits, RawOk, SharedMemoryBlock.View;
    var oldHandle := sub.shmHandle;
    received := [];
    for i := 0 to |messages|
      invariant pub.Valid() && pub.shmHandle.IsValid() && pub.shmHandle.handle == oldHandle.handle
      invariant HandleOk(pub.View(), oldHandle) && !pub.firstRun
      invariant fresh(pub.segment.blocks.Values - old(pub.segment.blocks.Values))
      invariant received == messages[..i]
    {
      sub.shmHandle := oldHandle;
      var got := ExchangeRaw(pub, sub, messages[i]);
      received := received + [got];
      assert messages[..i + 1] == messages[..i] + [messages[i]];
    }
  }
}
