/** Handles and storage, for any number of processes: every block is as long as its
    slot records, a stale handle is always recognisable by its resize count, and a
    publisher writes only to the live block. */
module ProtocolData {
  import opened Options
  import opened Descriptor
  import opened ProtocolModel
  import opened ProtocolControl

  /** A handle is never ahead of its slot, and one that is level with it points at
      the live block. */
  predicate HandleOk(h: Handle, x: Slot) {
    h.Handle? ==>
      && h.resizeCount <= x.desc.resizeCount
      && (h.resizeCount == x.desc.resizeCount ==> h.ptr == x.block.id)
  }

  predicate Fresh(h: Handle, x: Slot) {
    HandleOk(h, x) && h.Handle? && h.resizeCount == x.desc.resizeCount
  }

  /** Where a publisher has looked at its handle while holding the slot mutex. */
  predicate RefreshedLoc(l: Loc) {
    match l
    case RUnlockG1 | RGrow | RLockG2 | RCheckG2 | RRecreate | RUnlockG2 | RRecord | RUnlock
       | SWrite | SLockG2 | SDec | SUnlockG2 | SSignal | SUnlock | SUnwind => true
    case _ => false
  }

  predicate GrowingLoc(l: Loc) {
    l.RLockG2? || l.RCheckG2? || l.RRecreate?
  }

  predicate ProcData(p: Proc, x: Slot) {
    && HandleOk(p.handle, x)
    && (p.role.Publisher? ==> p.handle.Handle?)
    && (RoleOf(p.loc) == Some(Publisher) ==> IsMessage(p.msg))
    && (RefreshedLoc(p.loc) ==> Fresh(p.handle, x))
    && (GrowingLoc(p.loc) ==> |p.msg| > x.desc.capacity)
    && (p.loc.RRecord? ==> |p.msg| <= x.desc.capacity)
  }

  ghost predicate Data(s: State)
    requires Shapes(s)
  {
    && (forall k | 0 <= k < |s.slots| :: StoreOk(s.slots[k]))
    && (forall i | 0 <= i < |s.procs| :: ProcData(s.procs[i], s.slots[s.procs[i].slot]))
  }

  predicate SameStore(x: Slot, y: Slot) {
    y.desc == x.desc && y.block == x.block
  }

  /** A slot never goes back, and its resize count rises exactly when its block is
      destroyed and constructed again. */
  predicate Forward(x: Slot, y: Slot) {
    && y.desc.resizeCount >= x.desc.resizeCount
    && (y.desc.resizeCount == x.desc.resizeCount <==> y.block.id == x.block.id)
  }

  lemma LocalStore(x: Slot, p: Proc)
    requires InstrAt(p.loc).Local? && StoreOk(x) && ProcData(p, x) && RoleOf(p.loc) == Some(p.role)
    ensures var y := LocalStep(x, p).0;
      StoreOk(y) && Forward(x, y) && (SameStore(x, y) || At(p.loc).slotLock)
  {
    match p.loc
    case SWrite =>
    case RRecreate =>
      GrowingCountsOnce(x.desc, |p.msg|);
    case RRecord =>
    case _ =>
  }

  /** Only the publisher's own instructions change the store, and then they know it. */
  lemma LocalProc(x: Slot, p: Proc)
    requires InstrAt(p.loc).Local? && StoreOk(x) && ProcData(p, x) && RoleOf(p.loc) == Some(p.role)
    requires StoreOk(LocalStep(x, p).0) && Forward(x, LocalStep(x, p).0)
    ensures ProcData(LocalStep(x, p).1, LocalStep(x, p).0)
  {
    hide StoreOk, IsMessage;
    match p.loc
    case SWrite =>
    case RRecreate =>
    case RRecord =>
    case RStale | RGrow =>
    case _ =>
  }

  lemma LocalData(x: Slot, p: Proc)
    requires InstrAt(p.loc).Local? && StoreOk(x) && ProcData(p, x)
    requires RoleOf(p.loc) == Some(p.role)
    ensures var (y, q) := LocalStep(x, p);
      StoreOk(y) && ProcData(q, y) && Forward(x, y) && (SameStore(x, y) || At(p.loc).slotLock)
  {
    LocalStore(x, p);
    LocalProc(x, p);
    hide LocalStep, StoreOk, ProcData, Forward;
  }

  /** What ProcData asks at a location is asked at the one before it, unless a data
      instruction lies between. */
  lemma LocationsFollow(l: Loc)
    ensures !InstrAt(l).Local? ==>
      && (RefreshedLoc(Succ(l)) ==> RefreshedLoc(l))
      && (GrowingLoc(Succ(l)) ==> GrowingLoc(l))
      && (Succ(l).RRecord? ==> l.RRecord?)
  {
  }

  lemma OtherInstrData(v: View, a: Action, n: nat)
    requires CanAct(v, a) && ShapeIn(n, v.p) && StoreOk(v.x) && ProcData(v.p, v.x) && !IsDataStep(v, a)
    ensures ProcData(Act(v, a).v.p, v.x) && SameStore(v.x, Act(v, a).v.x)
  {
    LocationsFollow(v.p.loc);
    RoutinesStayApart(v.p.loc);
    OtherSteps(v, a, n);
    hide Act, HandleOk, StoreOk, IsMessage, Succ, InstrAt;
  }

  lemma ActData(v: View, a: Action, n: nat)
    requires CanAct(v, a) && ShapeIn(n, v.p) && StoreOk(v.x) && ProcData(v.p, v.x)
    ensures var w := Act(v, a).v;
      StoreOk(w.x) && ProcData(w.p, w.x) && Forward(v.x, w.x)
      && (SameStore(v.x, w.x) || (HoldsSlot(v.p) && InstrAt(v.p.loc).Local?))
  {
    if IsDataStep(v, a) {
      LocalData(v.x, v.p);
    } else {
      OtherInstrData(v, a, n);
    }
  }

  /** A process that is not holding the slot mutex keeps its view of the slot when
      the slot moves forward. */
  lemma ProcDataKept(p: Proc, n: nat, x: Slot, y: Slot)
    requires ShapeIn(n, p) && ProcData(p, x) && Forward(x, y)
    requires SameStore(x, y) || !HoldsSlot(p)
    ensures ProcData(p, y)
  {
  }

  lemma WakeData(p: Proc, k: nat, c: Option<Cond>, x: Slot)
    ensures ProcData(Wake(p, k, c), x) == ProcData(p, x)
  {
  }

  lemma DataInit(s: State)
    requires Init(s)
    ensures Shapes(s) && Data(s)
  {
  }

  lemma DataStep(s: State, a: Action)
    requires Control(s) && Data(s) && Enabled(s, a)
    ensures Control(Apply(s, a)) && Data(Apply(s, a))
  {
    ControlStep(s, a);
    var v := ViewOf(s, a.i);
    ActData(v, a, |s.slots|);
    var e := Act(v, a);
    ActIsDisciplined(v, a, |s.slots|);
    DataInstall(s, a.i, e);
  }

  lemma DataInstall(s: State, i: nat, e: Effect)
    requires Control(s) && Data(s) && i < |s.procs| && Shapes(Install(s, i, e))
    requires e.v.p.slot == s.procs[i].slot
    requires var v := ViewOf(s, i); var w := e.v;
      StoreOk(w.x) && ProcData(w.p, w.x) && Forward(v.x, w.x) && (SameStore(v.x, w.x) || HoldsSlot(v.p))
    ensures Data(Install(s, i, e))
  {
    hide StoreOk, ProcData, Forward, SameStore;
    var t := Install(s, i, e);
    var k := s.procs[i].slot;
    forall j | 0 <= j < |s.procs|
      ensures ProcData(t.procs[j], t.slots[t.procs[j].slot])
    {
      var p := if j == i then e.v.p else s.procs[j];
      WakeData(p, k, e.signal, t.slots[p.slot]);
      if j != i && p.slot == k {
        ProcDataKept(p, |s.slots|, s.slots[k], e.v.x);
      }
    }
  }

  lemma {:induction false} DataAlways(s: State, actions: seq<Action>)
    requires Init(s) && Run(s, actions).Some?
    ensures Control(Run(s, actions).value) && Data(Run(s, actions).value)
  {
    if actions == [] {
      ControlInit(s);
      DataInit(s);
    } else {
      DataAlways(s, actions[..|actions| - 1]);
      DataStep(Run(s, actions[..|actions| - 1]).value, actions[|actions| - 1]);
    }
  }

  // ---------------------------------------------------------------- results

  /** In every step of every run the resize count of a slot rises exactly when its
      block is recreated, and a block is never shorter than its slot's size. */
  lemma ResizeCountFollowsBlock(init: State, actions: seq<Action>, s: State, a: Action, k: nat)
    requires Init(init) && Run(init, actions) == Some(s) && Enabled(s, a) && k < |s.slots|
    ensures var x, y := s.slots[k], Apply(s, a).slots[k];
      && (y.desc.resizeCount > x.desc.resizeCount <==> y.block.id != x.block.id)
      && y.desc.resizeCount >= x.desc.resizeCount
      && 8 <= y.desc.size <= y.desc.capacity == |y.block.bytes|
  {
    DataAlways(init, actions);
    DataStep(s, a);
    ActData(ViewOf(s, a.i), a, |s.slots|);
  }
}
