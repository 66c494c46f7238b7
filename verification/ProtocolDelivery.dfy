/** What a subscriber receives on a topic with one publisher and one subscriber:
    messages in the order of publication, none twice, and each one untorn exactly
    when its length is the length of the message it was woken for. */
module ProtocolDelivery {
  import opened Options
  import opened Bytes
  import opened ProtocolModel
  import opened ProtocolControl
  import opened ProtocolData
  import opened ProtocolExclusion

  /** Where a publish stands with respect to the slot: its size not yet recorded,
      recorded, being written, or completely written. */
  datatype Phase = Before | Announced | Writing | Written

  function PhaseOf(l: Loc): Phase {
    match l
    case RUnlockG2 | RUnlock | SLock | SCheck | SLockG | SInc | SUnlockG | SRefresh => Announced
    case SWrite => Writing
    case SLockG2 | SDec | SUnlockG2 | SSignal | SUnlock => Written
    case _ => Before
  }

  function Newest(x: Slot): Bytes
    requires x.published != []
  {
    x.published[|x.published| - 1]
  }

  predicate Intact(x: Slot) {
    x.published != [] ==> Newest(x) <= x.block.bytes
  }

  /** The block holds the newest complete message, or it was recreated, longer than
      that message, for the next one and is still zero. */
  predicate Content(x: Slot) {
    Intact(x) || (x.published != [] && |Newest(x)| < x.desc.size && AllZero(x.block.bytes))
  }

  /** What can be read of message m at the length of g. */
  predicate Matches(g: Bytes, m: Bytes) {
    if |g| == |m| then g == m
    else if |g| < |m| then g <= m
    else m <= g || AllZero(g)
  }

  predicate PubOk(p: Proc, x: Slot) {
    !p.loc.SUnwind? && !p.loc.Thrown? &&
    match PhaseOf(p.loc)
    case Before => Intact(x)
    case Announced => x.desc.size == |p.msg| && Content(x)
    case Writing => x.desc.size == |p.msg| && p.pos <= |p.msg| && p.msg[..p.pos] <= x.block.bytes
    case Written => x.desc.size == |p.msg| && Intact(x) && x.published != [] && Newest(x) == p.msg
  }

  /** The subscriber is to receive the newest complete message. */
  predicate Due(q: Proc) {
    q.mode.DataWoken? || DueLoc(q.loc)
  }

  predicate DueLoc(l: Loc) {
    match l
    case WInc | WLockG | WIncG | WUnlockG | WUnlock | WRefresh | WOpen | WRead => true
    case _ => false
  }

  ghost predicate SeenBefore(q: Proc, n: int) {
    forall d | 0 <= d < |q.seen| :: q.seen[d] < n
  }

  ghost predicate Received(q: Proc, published: seq<Bytes>) {
    && |q.got| == |q.seen|
    && (forall d | 0 <= d < |q.seen| ::
          0 <= q.seen[d] < |published| && Matches(q.got[d], published[q.seen[d]]))
    && (forall d, e | 0 <= d < e < |q.seen| :: q.seen[d] < q.seen[e])
  }

  predicate Reading(q: Proc, x: Slot) {
    && (At(q.loc).slotClient ==> Content(x))
    && (q.loc.WOpen? || q.loc.WRead? ==> PointsAtLiveBlock(q.handle, x))
    && (q.loc.WRead? ==> q.limit == x.desc.size && |q.acc| <= q.limit && q.acc <= x.block.bytes)
  }

  ghost predicate SubOk(q: Proc, x: Slot) {
    && Received(q, x.published)
    && (Due(q) ==> x.published != [] && SeenBefore(q, |x.published| - 1))
    && Reading(q, x)
  }

  predicate Unannounced(p: Proc) {
    PhaseOf(p.loc).Written? && !p.loc.SUnlock?
  }

  predicate IsPub(s: State, i: nat, k: nat) {
    OnSlot(s, i, k) && s.procs[i].role.Publisher?
  }

  predicate IsSub(s: State, j: nat, k: nat) {
    OnSlot(s, j, k) && s.procs[j].role.Subscriber?
  }

  ghost predicate Delivery(s: State, k: nat)
    requires k < |s.slots|
  {
    && (forall i: nat | IsPub(s, i, k) :: PubOk(s.procs[i], s.slots[k]))
    && (forall j: nat | IsSub(s, j, k) :: SubOk(s.procs[j], s.slots[k]))
    && (forall i: nat, j: nat | IsPub(s, i, k) && IsSub(s, j, k) && Unannounced(s.procs[i]) ::
          SeenBefore(s.procs[j], |s.slots[k].published| - 1))
    && (s.slots[k].published != [] ==> exists i: nat :: IsPub(s, i, k))
  }

  predicate SameContent(x: Slot, y: Slot) {
    SameStore(x, y) && y.published == x.published
  }

  // ---------------------------------------------------------------- the publisher's steps

  lemma PublisherLocal(x: Slot, p: Proc)
    requires InstrAt(p.loc).Local? && RoleOf(p.loc) == Some(Publisher)
    requires StoreOk(x) && ProcData(p, x) && PubOk(p, x)
    ensures var (y, q) := LocalStep(x, p); PubOk(q, y)
    ensures var (y, q) := LocalStep(x, p);
      SameContent(x, y) || (y.published == x.published && !Unannounced(q))
      || (SameStore(x, y) && y.published == x.published + [p.msg])
    ensures var (y, q) := LocalStep(x, p);
      Unannounced(q) ==> SameStore(x, y) && y.published == x.published + [p.msg]
  {
    if p.loc.SWrite? && p.pos < |p.msg| {
      assert !Overruns(p.pos, |p.msg|, x.desc.size);
      var y := LocalStep(x, p).0;
      assert p.msg[..p.pos + 1] <= y.block.bytes;
    } else if p.loc.RRecreate? && x.published != [] {
      assert |Newest(x)| < |p.msg|;
    }
  }

  lemma OnlyPublishersSignal(l: Loc)
    ensures InstrAt(l).SignalData? ==> RoleOf(l) == Some(Publisher) && PhaseOf(l).Written? && !l.SUnlock?
  {
  }

  /** Only data instructions lead to another phase of a publish. */
  lemma PhasesFollow(l: Loc)
    ensures !InstrAt(l).Local? && RoleOf(l) == Some(Publisher) ==>
      && PhaseOf(Succ(l)) == (if l.SUnlock? then Before else PhaseOf(l))
      && (Succ(l).SUnlock? ==> InstrAt(l).SignalData?)
      && (Succ(l).SUnwind? ==> false) && (Succ(l).Thrown? ==> l.SUnwind? || l.Thrown?)
  {
  }

  lemma PublisherOther(v: View, a: Action, n: nat)
    requires CanAct(v, a) && ShapeIn(n, v.p) && v.p.role.Publisher? && PubOk(v.p, v.x)
    requires !IsDataStep(v, a)
    ensures PubOk(Act(v, a).v.p, Act(v, a).v.x) && SameContent(v.x, Act(v, a).v.x)
    ensures Unannounced(Act(v, a).v.p) ==> Unannounced(v.p)
    ensures Act(v, a).signal == Some(DataCond) ==> Unannounced(v.p)
  {
    PhasesFollow(v.p.loc);
    OnlyPublishersSignal(v.p.loc);
    OtherSteps(v, a, n);
    assert RoleOf(v.p.loc) == None ==> v.p.loc.Idle?;
    hide Act, CanAct, Succ, InstrAt, RoleOf, Newest, Content;
    PubSame(v.p, v.x, Act(v, a).v.x);
  }

  /** A step of the publisher as the subscriber sees it: unless the slot is as
      before, the publisher is past its check; a message may have been completed;
      data is signalled only with the newest message unannounced. */
  lemma PublisherAct(v: View, a: Action, n: nat)
    requires CanAct(v, a) && ShapeIn(n, v.p) && v.p.role.Publisher?
    requires StoreOk(v.x) && ProcData(v.p, v.x) && PubOk(v.p, v.x)
    ensures var w := Act(v, a).v;
      && PubOk(w.p, w.x)
      && (SameContent(v.x, w.x) || PastCheck(v.p))
      && (w.x.published == v.x.published || w.x.published == v.x.published + [v.p.msg])
      && (Unannounced(w.p) ==>
            w.x.published == v.x.published + [v.p.msg] || (Unannounced(v.p) && SameContent(v.x, w.x)))
      && (Act(v, a).signal == Some(DataCond) ==> Unannounced(v.p) && SameContent(v.x, w.x))
  {
    if IsDataStep(v, a) {
      PublisherLocal(v.x, v.p);
    } else {
      PublisherOther(v, a, n);
    }
  }

  /** The subscriber of a slot on which the publisher has no client. */
  lemma SubKept(q: Proc, x: Slot, y: Slot, m: Bytes)
    requires SubOk(q, x) && (SameContent(x, y) || !At(q.loc).slotClient)
    requires y.published == x.published || y.published == x.published + [m]
    ensures SubOk(q, y)
  {
  }

  // ---------------------------------------------------------------- the subscriber's steps

  lemma DeliveryMatches(x: Slot, g: Bytes)
    requires Content(x) && x.published != [] && StoreOk(x)
    requires |g| == x.desc.size && g <= x.block.bytes
    ensures Matches(g, Newest(x))
  {
    if Intact(x) {
      var m := Newest(x);
      if |g| <= |m| {
        assert g == x.block.bytes[..|g|] == m[..|g|];
      } else {
        assert m == g[..|m|];
      }
    }
  }

  lemma DeliveryAppends(q: Proc, p: Proc, published: seq<Bytes>)
    requires Received(q, published) && published != [] && SeenBefore(q, |published| - 1)
    requires Matches(q.acc, published[|published| - 1])
    requires p.got == q.got + [q.acc] && p.seen == q.seen + [|published| - 1]
    ensures Received(p, published)
  {
  }

  lemma SubscriberReads(x: Slot, q: Proc)
    requires q.loc.WRead? && q.mode.Running? && StoreOk(x) && ProcData(q, x) && SubOk(q, x)
    ensures SubOk(LocalStep(x, q).1, x)
  {
    hide Matches, Content;
    var p := LocalStep(x, q).1;
    if |q.acc| >= q.limit {
      DeliveryMatches(x, q.acc);
      DeliveryAppends(q, p, x.published);
      assert !Due(p) && Reading(p, x);
    } else {
      hide Received, SeenBefore;
      assert q.acc + [x.block.bytes[|q.acc|]] <= x.block.bytes;
      SameReceived(q, p, x.published);
    }
  }

  lemma SameReceived(q: Proc, p: Proc, published: seq<Bytes>)
    requires Received(q, published) && p.got == q.got && p.seen == q.seen
    ensures Received(p, published) && forall n :: SeenBefore(p, n) == SeenBefore(q, n)
  {
  }

  lemma SubscriberLocal(x: Slot, q: Proc)
    requires InstrAt(q.loc).Local? && RoleOf(q.loc) == Some(Subscriber) && q.mode.Running?
    requires StoreOk(x) && ProcData(q, x) && SubOk(q, x)
    ensures SubOk(LocalStep(x, q).1, x) && LocalStep(x, q).0 == x
  {
    if q.loc.WRead? {
      SubscriberReads(x, q);
      hide SubOk;
    } else {
      hide Received, SeenBefore, Content;
      SameReceived(q, LocalStep(x, q).1, x.published);
    }
  }

  /** A receive is due, or registered, only as long as it was before; it registers at WInc. */
  lemma ReceivesFollow(l: Loc)
    ensures !InstrAt(l).Local? ==>
      && (DueLoc(Succ(l)) ==> DueLoc(l) || l.WWait?)
      && (At(Succ(l)).slotClient ==> At(l).slotClient || l.WInc?)
      && !Succ(l).WOpen? && !Succ(l).WRead?
    ensures l.WOpen? || l.WRead? ==> InstrAt(l).Local?
  {
    DueFollows(l);
    RegistersFollow(l);
    hide Succ, At, DueLoc, InstrAt;
  }

  lemma DueFollows(l: Loc)
    ensures !InstrAt(l).Local? ==> DueLoc(Succ(l)) ==> DueLoc(l) || l.WWait?
    ensures !InstrAt(l).Local? ==> !Succ(l).WOpen? && !Succ(l).WRead?
    ensures l.WOpen? || l.WRead? ==> InstrAt(l).Local?
  {
  }

  lemma RegistersFollow(l: Loc)
    ensures !InstrAt(l).Local? ==> At(Succ(l)).slotClient ==> At(l).slotClient || l.WInc?
  {
  }

  lemma SubscriberOther(v: View, a: Action, n: nat)
    requires CanAct(v, a) && ShapeIn(n, v.p) && v.p.role.Subscriber?
    requires !IsDataStep(v, a)
    ensures var w := Act(v, a).v;
      && SameContent(v.x, w.x) && Act(v, a).signal != Some(DataCond)
      && w.p.got == v.p.got && w.p.seen == v.p.seen
      && (Due(w.p) ==> Due(v.p))
      && (At(w.p.loc).slotClient ==> At(v.p.loc).slotClient || v.p.loc.WInc?)
      && !w.p.loc.WOpen? && !w.p.loc.WRead?
  {
    OnlyPublishersSignal(v.p.loc);
    OtherSteps(v, a, n);
    MoveReceives(v.p, a, Act(v, a).v.p);
    hide Act, CanAct, Moves, InstrAt, Due, At;
  }

  lemma MoveReceives(p: Proc, a: Action, q: Proc)
    requires Moves(p, a, q) && p.role.Subscriber? && (a.Expire? ==> p.loc.WWait?)
    ensures q.got == p.got && q.seen == p.seen && (Due(q) ==> Due(p))
    ensures At(q.loc).slotClient ==> At(p.loc).slotClient || p.loc.WInc?
    ensures !q.loc.WOpen? && !q.loc.WRead?
  {
    ReceivesFollow(p.loc);
    StartsNoReceive();
    hide Succ, DueLoc, At, InstrAt;
    match a
    case Step(_) =>
    case _ =>
  }

  lemma StartsNoReceive()
    ensures !DueLoc(WLock) && !DueLoc(FLock) && !DueLoc(WTimeout)
    ensures !At(WLock).slotClient && !At(FLock).slotClient && !At(WTimeout).slotClient
  {
  }

  lemma SubscriberAct(v: View, a: Action, n: nat)
    requires CanAct(v, a) && ShapeIn(n, v.p) && v.p.role.Subscriber?
    requires StoreOk(v.x) && ProcData(v.p, v.x) && SubOk(v.p, v.x)
    requires v.p.loc.WInc? ==> Content(v.x)
    ensures var w := Act(v, a).v;
      && SubOk(w.p, w.x) && SameContent(v.x, w.x) && Act(v, a).signal != Some(DataCond)
      && (At(v.p.loc).slotClient || w.p.seen == v.p.seen)
  {
    if IsDataStep(v, a) {
      SubscriberLocal(v.x, v.p);
    } else {
      SubscriberOther(v, a, n);
    }
  }

  // ---------------------------------------------------------------- the topic

  /** Everything known of a one-to-one slot. */
  ghost predicate Topic(s: State, k: nat) {
    Control(s) && Data(s) && k < |s.slots| && OneToOne(s, k) && Excluded(s, k) && Delivery(s, k)
  }

  lemma WakeDelivery(p: Proc, k: nat, c: Option<Cond>, x: Slot)
    ensures var q := Wake(p, k, c);
      && q.role == p.role && (PubOk(q, x) <==> PubOk(p, x)) && (Unannounced(q) <==> Unannounced(p))
      && q.seen == p.seen
      && (SubOk(p, x) && (c == Some(DataCond) ==> x.published != [] && SeenBefore(p, |x.published| - 1)) ==>
            SubOk(q, x))
  {
  }

  lemma PubSame(p: Proc, x: Slot, y: Slot)
    requires SameContent(x, y)
    ensures PubOk(p, x) == PubOk(p, y)
  {
  }

  /** A writing publisher holds the slot mutex, so no subscriber is registering. */
  lemma NotWriting(s: State, i: nat, j: nat)
    requires Control(s) && i < |s.procs| && j < |s.procs| && s.procs[i].slot == s.procs[j].slot
    requires s.procs[j].loc.WInc?
    ensures !s.procs[i].loc.SWrite?
  {
    assert ShapeIn(|s.slots|, s.procs[i]) && ShapeIn(|s.slots|, s.procs[j]);
    if s.procs[i].loc.SWrite? {
      assert HoldsSlot(s.procs[i]) && HoldsSlot(s.procs[j]);
      hide Control, ShapeIn, HoldsSlot;
      OneSlotHolder(s, i, j);
    }
  }

  lemma ContentUnlessWriting(p: Proc, x: Slot)
    requires PubOk(p, x) && !p.loc.SWrite?
    ensures Content(x)
  {
  }

  lemma RegisteringFindsContent(s: State, k: nat, j: nat)
    requires Control(s) && k < |s.slots| && Delivery(s, k) && IsSub(s, j, k) && s.procs[j].loc.WInc?
    ensures Content(s.slots[k])
  {
    hide Control, PubOk, SubOk, SeenBefore, Newest;
    if s.slots[k].published != [] {
      var i: nat :| IsPub(s, i, k);
      assert PubOk(s.procs[i], s.slots[k]);
      NotWriting(s, i, j);
      ContentUnlessWriting(s.procs[i], s.slots[k]);
    }
  }

  /** On a slot without clients no subscriber is registered. */
  lemma NoClient(s: State, k: nat, j: nat)
    requires Control(s) && k < |s.slots| && OnSlot(s, j, k) && s.slots[k].clients == 0
    ensures !At(s.procs[j].loc).slotClient
  {
    CountPositive(s.procs, SlotClients(k));
    assert !Registered(s.procs[j], SlotClients(k));
  }

  /** The subscriber q of a slot, after a step of the publisher's view. */
  lemma SubAfterAct(v: View, a: Action, q: Proc, k: nat, n: nat)
    requires CanAct(v, a) && ShapeIn(n, v.p) && v.p.role.Publisher?
    requires StoreOk(v.x) && ProcData(v.p, v.x) && PubOk(v.p, v.x)
    requires SubOk(q, v.x) && (PastCheck(v.p) ==> !At(q.loc).slotClient)
    requires Unannounced(v.p) ==> SeenBefore(q, |v.x.published| - 1)
    ensures var e := Act(v, a); var r := Wake(q, k, e.signal);
      && SubOk(r, e.v.x)
      && (Unannounced(e.v.p) ==> SeenBefore(r, |e.v.x.published| - 1))
  {
    PublisherAct(v, a, n);
    hide Act, CanAct, Reading, Content, StoreOk, ProcData, Matches;
    var e := Act(v, a);
    SubKept(q, v.x, e.v.x, v.p.msg);
    WakeDelivery(q, k, e.signal, e.v.x);
  }

  /** The subscriber, after a step of the publisher. */
  lemma SubAfterPublisher(s: State, a: Action, k: nat, j: nat)
    requires Topic(s, k) && Enabled(s, a) && IsPub(s, a.i, k) && IsSub(s, j, k)
    ensures var t := Apply(s, a);
      && IsSub(t, j, k) && SubOk(t.procs[j], t.slots[k])
      && (Unannounced(t.procs[a.i]) ==> SeenBefore(t.procs[j], |t.slots[k].published| - 1))
  {
    var v, q := ViewOf(s, a.i), s.procs[j];
    PublisherOnTopic(s, a, k, j);
    SubAfterAct(v, a, q, k, |s.slots|);
    OthersAreWoken(s, a, j);
    OthersAreWoken(s, a, a.i);
    StepKeepsPlace(s, a, j);
    hide Act, CanAct, Apply, Topic, PubOk, SubOk, SeenBefore, PastCheck, Unannounced, StoreOk, ProcData;
    var e := Act(v, a);
    WakeDelivery(e.v.p, k, e.signal, e.v.x);
  }

  /** What a one-to-one slot says of its publisher, about to step, and its subscriber. */
  lemma PublisherOnTopic(s: State, a: Action, k: nat, j: nat)
    requires Topic(s, k) && Enabled(s, a) && IsPub(s, a.i, k) && IsSub(s, j, k)
    ensures var v, q := ViewOf(s, a.i), s.procs[j];
      && ShapeIn(|s.slots|, v.p) && StoreOk(v.x) && ProcData(v.p, v.x) && PubOk(v.p, v.x) && SubOk(q, v.x)
      && (PastCheck(v.p) ==> !At(q.loc).slotClient)
      && (Unannounced(v.p) ==> SeenBefore(q, |v.x.published| - 1))
  {
    hide Apply, Act, CanAct, PubOk, SubOk, SeenBefore, StoreOk, ProcData;
    if PastCheck(s.procs[a.i]) {
      NoClient(s, k, j);
    }
  }

  lemma PubAfterItsStep(s: State, a: Action, k: nat)
    requires Topic(s, k) && Enabled(s, a) && IsPub(s, a.i, k)
    ensures IsPub(Apply(s, a), a.i, k) && PubOk(Apply(s, a).procs[a.i], Apply(s, a).slots[k])
  {
    var v := ViewOf(s, a.i);
    var e := Act(v, a);
    assert PubOk(v.p, v.x);
    PublisherAct(v, a, |s.slots|);
    StepKeepsPlace(s, a, a.i);
    WakeDelivery(e.v.p, k, e.signal, e.v.x);
  }

  lemma PublisherStep(s: State, a: Action, k: nat)
    requires Topic(s, k) && Enabled(s, a) && IsPub(s, a.i, k)
    ensures Delivery(Apply(s, a), k)
  {
    hide PubOk, SubOk, SeenBefore, Control, Data, Excluded, Unannounced;
    var t := Apply(s, a);
    PubAfterItsStep(s, a, k);
    forall j: nat | OnSlot(t, j, k) && j != a.i
      ensures IsSub(t, j, k) && SubOk(t.procs[j], t.slots[k])
      ensures Unannounced(t.procs[a.i]) ==> SeenBefore(t.procs[j], |t.slots[k].published| - 1)
    {
      StepKeepsPlace(s, a, j);
      SubAfterPublisher(s, a, k, j);
    }
  }

  /** The publisher p of a slot, after a step of the subscriber's view. */
  lemma PubAfterAct(v: View, a: Action, p: Proc, k: nat, n: nat)
    requires CanAct(v, a) && ShapeIn(n, v.p) && v.p.role.Subscriber?
    requires StoreOk(v.x) && ProcData(v.p, v.x) && SubOk(v.p, v.x) && PubOk(p, v.x)
    requires v.p.loc.WInc? ==> Content(v.x)
    requires Unannounced(p) ==> SeenBefore(v.p, |v.x.published| - 1) && !At(v.p.loc).slotClient
    ensures var e := Act(v, a); var q := Wake(p, k, e.signal);
      && PubOk(q, e.v.x)
      && (Unannounced(q) ==> SeenBefore(Wake(e.v.p, k, e.signal), |e.v.x.published| - 1))
  {
    SubscriberAct(v, a, n);
    hide Act, CanAct, PubOk, SubOk, StoreOk, ProcData, Content;
    var e := Act(v, a);
    PubSame(p, v.x, e.v.x);
    WakeDelivery(p, k, e.signal, e.v.x);
    WakeDelivery(e.v.p, k, e.signal, e.v.x);
  }

  lemma PubBeforeSubscriber(s: State, a: Action, k: nat, j: nat)
    requires Topic(s, k) && Enabled(s, a) && IsSub(s, a.i, k) && IsPub(s, j, k)
    ensures var v, p := ViewOf(s, a.i), s.procs[j];
      && ShapeIn(|s.slots|, v.p) && StoreOk(v.x) && ProcData(v.p, v.x) && SubOk(v.p, v.x) && PubOk(p, v.x)
      && (Unannounced(p) ==> SeenBefore(v.p, |v.x.published| - 1) && !At(v.p.loc).slotClient)
  {
    hide PubOk, SubOk, SeenBefore, Act, CanAct;
    var p := s.procs[j];
    if Unannounced(p) {
      assert PastCheck(p);
      NoClient(s, k, a.i);
    }
  }

  /** The publisher, after a step of the subscriber. */
  lemma PubAfterSubscriber(s: State, a: Action, k: nat, j: nat)
    requires Topic(s, k) && Enabled(s, a) && IsSub(s, a.i, k) && IsPub(s, j, k)
    requires s.procs[a.i].loc.WInc? ==> Content(s.slots[k])
    ensures var t := Apply(s, a);
      && IsPub(t, j, k) && PubOk(t.procs[j], t.slots[k])
      && (Unannounced(t.procs[j]) ==> SeenBefore(t.procs[a.i], |t.slots[k].published| - 1))
  {
    PubBeforeSubscriber(s, a, k, j);
    PubAfterAct(ViewOf(s, a.i), a, s.procs[j], k, |s.slots|);
    StepKeepsPlace(s, a, j);
    OthersAreWoken(s, a, j);
    OthersAreWoken(s, a, a.i);
    hide Topic, Act, CanAct, Apply, Unannounced, PubOk, SeenBefore;
  }

  lemma SubAfterItsStep(s: State, a: Action, k: nat)
    requires Topic(s, k) && Enabled(s, a) && IsSub(s, a.i, k)
    requires s.procs[a.i].loc.WInc? ==> Content(s.slots[k])
    ensures var t := Apply(s, a);
      IsSub(t, a.i, k) && SubOk(t.procs[a.i], t.slots[k]) && t.slots[k].published == s.slots[k].published
  {
    var v := ViewOf(s, a.i);
    var e := Act(v, a);
    assert SubOk(v.p, v.x);
    SubscriberAct(v, a, |s.slots|);
    StepKeepsPlace(s, a, a.i);
    WakeDelivery(e.v.p, k, e.signal, e.v.x);
  }

  lemma SubscriberStep(s: State, a: Action, k: nat)
    requires Topic(s, k) && Enabled(s, a) && IsSub(s, a.i, k)
    ensures Delivery(Apply(s, a), k)
  {
    hide PubOk, SubOk, SeenBefore, Control, Data, Excluded, Unannounced, Content;
    var t := Apply(s, a);
    if s.procs[a.i].loc.WInc? {
      RegisteringFindsContent(s, k, a.i);
    }
    SubAfterItsStep(s, a, k);
    forall j: nat | OnSlot(t, j, k) && j != a.i
      ensures IsPub(t, j, k) && PubOk(t.procs[j], t.slots[k])
      ensures Unannounced(t.procs[j]) ==> SeenBefore(t.procs[a.i], |t.slots[k].published| - 1)
    {
      StepKeepsPlace(s, a, j);
      PubAfterSubscriber(s, a, k, j);
    }
    if t.slots[k].published != [] {
      var j: nat :| IsPub(s, j, k);
      StepKeepsPlace(s, a, j);
      assert IsPub(t, j, k);
    }
  }

  lemma ProcElsewhere(s: State, a: Action, k: nat, j: nat)
    requires Topic(s, k) && Enabled(s, a) && !OnSlot(s, a.i, k) && OnSlot(s, j, k)
    ensures var t, p := Apply(s, a), s.procs[j]; var q := t.procs[j];
      && t.slots[k] == s.slots[k] && q.slot == p.slot && q.role == p.role && q.seen == p.seen
      && Unannounced(q) == Unannounced(p)
      && PubOk(q, s.slots[k]) == PubOk(p, s.slots[k])
      && (SubOk(p, s.slots[k]) ==> SubOk(q, s.slots[k]))
  {
    hide Act, CanAct, Apply, PubOk, SubOk, Unannounced, Excluded, Delivery, OneToOne, Data, Owners, Counts, Wakeups;
    StepElsewhere(s, a, k, j);
    hide Topic;
    WakeDelivery(s.procs[j], k, Some(GlobalCond), s.slots[k]);
  }

  lemma SlotElsewhere(s: State, a: Action, k: nat)
    requires Control(s) && Enabled(s, a) && k < |s.slots| && !OnSlot(s, a.i, k)
    ensures Apply(s, a).slots[k] == s.slots[k]
  {
  }

  lemma ElsewhereStep(s: State, a: Action, k: nat)
    requires Topic(s, k) && Enabled(s, a) && !OnSlot(s, a.i, k)
    ensures Delivery(Apply(s, a), k)
  {
    hide PubOk, SubOk, Data, Excluded, Unannounced, Act, CanAct;
    var t := Apply(s, a);
    SlotElsewhere(s, a, k);
    forall j: nat | OnSlot(t, j, k)
      ensures IsPub(t, j, k) ==> IsPub(s, j, k) && PubOk(t.procs[j], t.slots[k])
      ensures IsSub(t, j, k) ==> IsSub(s, j, k) && SubOk(t.procs[j], t.slots[k])
      ensures t.procs[j].seen == s.procs[j].seen && Unannounced(t.procs[j]) == Unannounced(s.procs[j])
    {
      StepKeepsPlace(s, a, j);
      ProcElsewhere(s, a, k, j);
    }
    if t.slots[k].published != [] {
      var j: nat :| IsPub(s, j, k);
      StepKeepsPlace(s, a, j);
      assert IsPub(t, j, k);
    }
  }

  lemma TopicStep(s: State, a: Action, k: nat)
    requires Topic(s, k) && Enabled(s, a)
    ensures Topic(Apply(s, a), k)
  {
    DataStep(s, a);
    OneToOneStep(s, a, k);
    ExcludedStep(s, a, k);
    if !OnSlot(s, a.i, k) {
      ElsewhereStep(s, a, k);
    } else if IsPub(s, a.i, k) {
      PublisherStep(s, a, k);
    } else {
      SubscriberStep(s, a, k);
    }
  }

  lemma DeliveryInit(s: State, k: nat)
    requires Init(s) && k < |s.slots|
    ensures Delivery(s, k)
  {
    assert InitSlot(s.slots[k]);
    forall i: nat | OnSlot(s, i, k)
      ensures IsPub(s, i, k) ==> PubOk(s.procs[i], s.slots[k])
      ensures IsSub(s, i, k) ==> SubOk(s.procs[i], s.slots[k])
    {
      assert InitProc(s, s.procs[i]);
    }
  }

  lemma {:induction false} TopicAlways(s: State, actions: seq<Action>, k: nat)
    requires Init(s) && Run(s, actions).Some? && k < |s.slots| && OneToOne(s, k)
    ensures Topic(Run(s, actions).value, k)
  {
    hide Control, Data, Excluded, OneToOne, Enabled, Apply;
    if actions == [] {
      ExcludedAlways(s, actions, k);
      DeliveryInit(s, k);
    } else {
      hide Init, Delivery;
      TopicAlways(s, actions[..|actions| - 1], k);
      TopicStep(Run(s, actions[..|actions| - 1]).value, actions[|actions| - 1], k);
    }
  }

  // ---------------------------------------------------------------- results

  /** Delivery, for every run, whatever else the processes of other topics do: on a
      topic with one publisher and one subscriber, delivery d is of message seen[d],
      the numbers strictly increase, and what was delivered is that message exactly
      when it has that message's length. */
  lemma InOrderUntornDelivery(init: State, actions: seq<Action>, s: State, k: nat, j: nat)
    requires Init(init) && k < |init.slots| && OneToOne(init, k)
    requires Run(init, actions) == Some(s) && IsSub(s, j, k)
    ensures k < |s.slots|
    ensures var q, published := s.procs[j], s.slots[k].published;
      && |q.got| == |q.seen|
      && (forall d | 0 <= d < |q.seen| :: 0 <= q.seen[d] < |published|)
      && (forall d, e | 0 <= d < e < |q.seen| :: q.seen[d] < q.seen[e])
      && (forall d | 0 <= d < |q.seen| ::
            q.got[d] == published[q.seen[d]] <==> |q.got[d]| == |published[q.seen[d]]|)
  {
    TopicAlways(init, actions, k);
    assert SubOk(s.procs[j], s.slots[k]);
  }
}
