/** What the processes' raw pointers reach, for any number of processes: every load of
    a reader, made with no mutex held, and every store of a publisher is into the live
    block and inside it. */
module ProtocolAccess {
  import opened Options
  import opened ProtocolModel
  import opened ProtocolControl
  import opened ProtocolData

  // ---------------------------------------------------------------- invariant

  /** About to destroy the slot's block: past the check of the global clients, or
      notified in it, where nothing is checked again. */
  predicate Clearing(p: Proc) {
    p.loc.RRecreate? || (p.loc.RCheckG2? && p.mode.GlobalWoken?)
  }

  /** A reader between registering and unregistering globally. */
  predicate InBody(p: Proc) {
    p.role.Subscriber? && At(p.loc).globalClient
  }

  predicate ReaderOk(p: Proc, x: Slot) {
    && (p.loc.WOpen? || p.loc.WRead? ==> PointsAtLiveBlock(p.handle, x))
    && (p.loc.WRead? ==> |p.acc| <= p.limit <= |x.block.bytes|)
  }

  /** Past the timestamp the whole message is known to fit. */
  predicate WriterOk(p: Proc, x: Slot) {
    p.loc.SWrite? ==> p.pos <= |p.msg| && (p.pos > 8 ==> |p.msg| <= x.desc.size)
  }

  ghost predicate Access(s: State)
    requires Shapes(s)
  {
    forall i | 0 <= i < |s.procs| ::
      ReaderOk(s.procs[i], s.slots[s.procs[i].slot]) && WriterOk(s.procs[i], s.slots[s.procs[i].slot])
  }

  /** While a block is about to be destroyed no reader of its slot is in its body. */
  ghost predicate Cleared(s: State) {
    forall i: nat, j: nat |
      i < |s.procs| && j < |s.procs| && s.procs[i].slot == s.procs[j].slot && Clearing(s.procs[i]) ::
      !InBody(s.procs[j])
  }

  // ---------------------------------------------------------------- one step of a view

  lemma ClearingHolds(p: Proc, n: nat)
    requires ShapeIn(n, p) && Clearing(p)
    ensures HoldsSlot(p) && p.role.Publisher?
  {
  }

  lemma BodyBegins(l: Loc)
    ensures !InstrAt(l).Local? && RoleOf(l) == Some(Subscriber) && At(Succ(l)).globalClient ==>
              At(l).globalClient || (l.WIncG? && At(l).slotLock)
    ensures Succ(l).RRecreate? ==> l.RCheckG2?
  {
  }

  /** Nothing is checked again after the wait, so the check is where a block is cleared. */
  lemma ClearsAtCheck(v: View, i: nat)
    requires CanStep(v) && v.p.loc.RCheckG2? && v.p.mode.Running?
    ensures Clearing(Exec(i, v).v.p) ==> v.gclients == 0
  {
  }

  lemma ActAndClearing(v: View, a: Action, n: nat)
    requires CanAct(v, a) && ShapeIn(n, v.p)
    ensures var q := Act(v, a).v.p;
      (Clearing(q) ==> Clearing(v.p) || v.gclients == 0) && (InBody(q) ==> InBody(v.p) || HoldsSlot(v.p))
  {
    if IsDataStep(v, a) {
      LocalIsDisciplined(v.x, v.p);
    } else {
      if v.p.loc.RCheckG2? && v.p.mode.Running? && a.Step? {
        ClearsAtCheck(v, a.i);
      }
      OtherSteps(v, a, n);
      MoveClears(v.p, a, Act(v, a).v.p, n);
      hide Act, CanAct, Moves, InBody;
    }
  }

  lemma MoveClears(p: Proc, a: Action, q: Proc, n: nat)
    requires Moves(p, a, q) && ShapeIn(n, p)
    ensures Clearing(q) ==> Clearing(p) || (p.loc.RCheckG2? && p.mode.Running? && a.Step?)
    ensures InBody(q) ==> InBody(p) || HoldsSlot(p)
  {
    BodyBegins(p.loc);
    if q == Goto(p, Succ(p.loc)) {
      SuccClears(p, n);
    } else {
      assert !At(WLock).globalClient && !At(FLock).globalClient && !At(WTimeout).globalClient;
      hide Succ, At, InstrAt, RoleOf;
    }
  }

  lemma SuccClears(p: Proc, n: nat)
    requires ShapeIn(n, p) && !InstrAt(p.loc).Local? && !p.mode.GlobalWait?
    ensures var q := Goto(p, Succ(p.loc));
      && (Clearing(q) ==> Clearing(p) || (p.loc.RCheckG2? && p.mode.Running?))
      && (InBody(q) ==> InBody(p) || HoldsSlot(p))
  {
    BodyBegins(p.loc);
    assert InstrAt(RCheckG2).CheckGlobal?;
    assert !InstrAt(WIncG).Local? && !InstrAt(WIncG).CheckSlot? && !InstrAt(WIncG).CheckGlobal?;
    hide Succ;
  }

  /** Only RRecreate replaces the block or changes its length. */
  predicate SameBlock(x: Slot, y: Slot) {
    y.block.id == x.block.id && |y.block.bytes| == |x.block.bytes|
  }

  lemma ActKeepsBlock(v: View, a: Action, n: nat)
    requires CanAct(v, a) && ShapeIn(n, v.p) && StoreOk(v.x) && ProcData(v.p, v.x)
    ensures SameBlock(v.x, Act(v, a).v.x) || v.p.loc.RRecreate?
  {
    if !IsDataStep(v, a) {
      OtherInstrData(v, a, n);
    }
  }

  lemma LocalAccess(x: Slot, p: Proc)
    requires InstrAt(p.loc).Local? && StoreOk(x) && ProcData(p, x)
    requires ReaderOk(p, x) && WriterOk(p, x)
    ensures var (y, q) := LocalStep(x, p); ReaderOk(q, y) && WriterOk(q, y)
  {
    match p.loc
    case SWrite =>
    case SRefresh =>
    case WRefresh =>
    case WOpen =>
    case WRead =>
    case _ =>
  }

  lemma BodiesBeginLocally(l: Loc)
    ensures !InstrAt(l).Local? ==> !Succ(l).SWrite? && !Succ(l).WOpen? && !Succ(l).WRead?
  {
  }

  lemma ActAccess(v: View, a: Action, n: nat)
    requires CanAct(v, a) && ShapeIn(n, v.p) && StoreOk(v.x) && ProcData(v.p, v.x)
    requires ReaderOk(v.p, v.x) && WriterOk(v.p, v.x)
    ensures ReaderOk(Act(v, a).v.p, Act(v, a).v.x) && WriterOk(Act(v, a).v.p, Act(v, a).v.x)
  {
    if IsDataStep(v, a) {
      LocalAccess(v.x, v.p);
    } else {
      BodiesBeginLocally(v.p.loc);
      OtherSteps(v, a, n);
      hide Act, CanAct, Succ, InstrAt, StoreOk, ProcData, ReaderOk, WriterOk;
      var q := Act(v, a).v.p;
      AccessAtOther(v.p, q, v.x, Act(v, a).v.x);
    }
  }

  lemma AccessAtOther(p: Proc, q: Proc, x: Slot, y: Slot)
    requires ReaderOk(p, x) && WriterOk(p, x)
    requires !(q.loc.SWrite? || q.loc.WOpen? || q.loc.WRead?)
          || (q.loc == p.loc && q.handle == p.handle && q.pos == p.pos && q.msg == p.msg
              && q.acc == p.acc && q.limit == p.limit && SameStore(x, y))
    ensures ReaderOk(q, y) && WriterOk(q, y)
  {
  }

  // ---------------------------------------------------------------- one step of the state

  lemma WakeClearing(p: Proc, k: nat, c: Option<Cond>)
    ensures var q := Wake(p, k, c);
      && InBody(q) == InBody(p) && (Clearing(q) ==> Clearing(p) || c == Some(GlobalCond))
  {
  }

  lemma WakeAccess(p: Proc, k: nat, c: Option<Cond>, x: Slot)
    ensures ReaderOk(Wake(p, k, c), x) == ReaderOk(p, x) && WriterOk(Wake(p, k, c), x) == WriterOk(p, x)
  {
  }

  /** With no client registered globally, nobody is in its body. */
  lemma NobodyInBody(s: State, j: nat)
    requires Control(s) && s.gclients == 0 && j < |s.procs|
    ensures !InBody(s.procs[j])
  {
    hide Count;
    CountPositive(s.procs, GlobalClients);
    assert !Registered(s.procs[j], GlobalClients);
  }

  lemma ClearedPair(s: State, a: Action, i: nat, j: nat)
    requires Control(s) && Cleared(s) && Enabled(s, a)
    requires i < |s.procs| && j < |s.procs| && s.procs[i].slot == s.procs[j].slot
    ensures Clearing(Apply(s, a).procs[i]) ==> !InBody(Apply(s, a).procs[j])
  {
    var t, v := Apply(s, a), ViewOf(s, a.i);
    var e := Act(v, a);
    assert ShapeIn(|s.slots|, v.p);
    ControlStep(s, a);
    OthersAreWoken(s, a, i);
    OthersAreWoken(s, a, j);
    hide Control, Act, CanAct, Apply, Enabled, Clearing, InBody, HoldsSlot;
    WakeClearing(if i == a.i then e.v.p else s.procs[i], v.p.slot, e.signal);
    WakeClearing(if j == a.i then e.v.p else s.procs[j], v.p.slot, e.signal);
    if e.signal == Some(GlobalCond) {
      NotifiesAtZero(v, a);
      NobodyInBody(t, j);
    } else if Clearing(t.procs[i]) {
      ClearedFor(s, a, i, j);
    }
  }

  /** The step itself, whoever it notifies. */
  lemma ClearedFor(s: State, a: Action, i: nat, j: nat)
    requires Control(s) && Cleared(s) && Enabled(s, a)
    requires i < |s.procs| && j < |s.procs| && s.procs[i].slot == s.procs[j].slot
    requires Clearing(if i == a.i then Act(ViewOf(s, a.i), a).v.p else s.procs[i])
    ensures !InBody(if j == a.i then Act(ViewOf(s, a.i), a).v.p else s.procs[j])
  {
    var v := ViewOf(s, a.i);
    assert ShapeIn(|s.slots|, v.p);
    assert ShapeIn(|s.slots|, s.procs[i]);
    ActAndClearing(v, a, |s.slots|);
    ActKeepsShape(v, a, |s.slots|);
    hide Act, CanAct, Apply;
    if i == a.i {
      ClearingHolds(Act(v, a).v.p, |s.slots|);
    }
    if v.gclients == 0 {
      NobodyInBody(s, j);
    }
    if Clearing(s.procs[i]) {
      assert !InBody(s.procs[j]);
      ClearingHolds(s.procs[i], |s.slots|);
      if HoldsSlot(s.procs[a.i]) && j == a.i {
        OneSlotHolder(s, i, j);
      }
    }
  }

  lemma ClearedStep(s: State, a: Action)
    requires Control(s) && Cleared(s) && Enabled(s, a)
    ensures Cleared(Apply(s, a))
  {
    hide Control, Act, CanAct, Enabled, Clearing, InBody;
    var t := Apply(s, a);
    PlacesKept(s, a);
    forall i: nat, j: nat |
      i < |t.procs| && j < |t.procs| && t.procs[i].slot == t.procs[j].slot && Clearing(t.procs[i])
      ensures !InBody(t.procs[j])
    {
      ClearedPair(s, a, i, j);
    }
  }

  // ---------------------------------------------------------------- the accesses

  lemma NotClearing(s: State, i: nat, j: nat)
    requires Cleared(s) && i < |s.procs| && j < |s.procs| && s.procs[i].slot == s.procs[j].slot
    requires InBody(s.procs[j])
    ensures !Clearing(s.procs[i])
  {
  }

  /** The block stays under a reader in its body, whoever takes the step. */
  lemma BlockStays(s: State, a: Action, j: nat)
    requires Control(s) && Data(s) && Cleared(s) && Enabled(s, a) && j < |s.procs| && InBody(s.procs[j])
    ensures var k := s.procs[j].slot; SameBlock(s.slots[k], Apply(s, a).slots[k])
  {
    var v := ViewOf(s, a.i);
    ActKeepsBlock(v, a, |s.slots|);
    OthersAreWoken(s, a, j);
    hide Act, CanAct, Apply;
    if v.p.slot == s.procs[j].slot {
      NotClearing(s, a.i, j);
    }
  }

  lemma AccessFor(s: State, a: Action, j: nat)
    requires Control(s) && Data(s) && Access(s) && Cleared(s) && Enabled(s, a) && j < |s.procs|
    ensures var t := Apply(s, a); var k := s.procs[j].slot;
      && |t.procs| == |s.procs| && |t.slots| == |s.slots|
      && ReaderOk(t.procs[j], t.slots[k]) && WriterOk(t.procs[j], t.slots[k])
  {
    var v, p := ViewOf(s, a.i), s.procs[j];
    var e := Act(v, a);
    assert ShapeIn(|s.slots|, v.p);
    OthersAreWoken(s, a, j);
    if j == a.i {
      ActAccess(v, a, |s.slots|);
    } else if v.p.slot == p.slot {
      OtherOnSlot(s, a, j);
    }
    hide Act, CanAct, Control, Data, Cleared, Apply, ReaderOk, WriterOk;
    WakeAccess(if j == a.i then e.v.p else p, v.p.slot, e.signal, Apply(s, a).slots[p.slot]);
  }

  /** Another process of the slot, after a step of process a.i. */
  lemma OtherOnSlot(s: State, a: Action, j: nat)
    requires Control(s) && Data(s) && Access(s) && Cleared(s) && Enabled(s, a)
    requires j < |s.procs| && j != a.i && s.procs[j].slot == s.procs[a.i].slot
    ensures var y := Act(ViewOf(s, a.i), a).v.x; ReaderOk(s.procs[j], y) && WriterOk(s.procs[j], y)
  {
    var v, p := ViewOf(s, a.i), s.procs[j];
    var y := Act(v, a).v.x;
    SlotKnown(s, a, j);
    ActData(v, a, |s.slots|);
    if p.loc.WOpen? || p.loc.WRead? {
      BlockStays(s, a, j);
      OthersAreWoken(s, a, j);
    }
    hide Act, CanAct, Apply, Cleared, Control, Data, Access, ReaderOk, WriterOk;
    WriterKept(s, a.i, j, y);
    ReaderKept(p, v.x, y);
  }

  lemma SlotKnown(s: State, a: Action, j: nat)
    requires Control(s) && Data(s) && Access(s) && Enabled(s, a) && j < |s.procs|
    ensures var v, p := ViewOf(s, a.i), s.procs[j];
      && ShapeIn(|s.slots|, v.p) && ShapeIn(|s.slots|, p) && StoreOk(v.x) && ProcData(v.p, v.x)
      && ReaderOk(p, s.slots[p.slot]) && WriterOk(p, s.slots[p.slot])
      && (p.loc.WOpen? || p.loc.WRead? ==> InBody(p))
  {
    hide ReaderOk, WriterOk, StoreOk, ProcData, Act, CanAct;
  }

  lemma ReaderKept(p: Proc, x: Slot, y: Slot)
    requires ReaderOk(p, x) && (p.loc.WOpen? || p.loc.WRead? ==> SameBlock(x, y))
    ensures ReaderOk(p, y)
  {
  }

  lemma WriterHolds(p: Proc, n: nat)
    requires ShapeIn(n, p) && p.loc.SWrite?
    ensures HoldsSlot(p)
  {
  }

  /** A writer holds the slot mutex, so nobody else changes the slot. */
  lemma WriterKept(s: State, i: nat, j: nat, y: Slot)
    requires Control(s) && i < |s.procs| && j < |s.procs| && i != j && s.procs[i].slot == s.procs[j].slot
    requires var x := s.slots[s.procs[i].slot];
      WriterOk(s.procs[j], x) && (SameStore(x, y) || HoldsSlot(s.procs[i]))
    ensures WriterOk(s.procs[j], y)
  {
    if s.procs[j].loc.SWrite? {
      WriterHolds(s.procs[j], |s.slots|);
      hide At, RoleOf, ShapeIn, HoldsSlot, Counts, Wakeups;
      if HoldsSlot(s.procs[i]) {
        OneSlotHolder(s, i, j);
      }
    }
  }

  lemma AccessInit(s: State)
    requires Init(s)
    ensures Shapes(s) && Access(s) && Cleared(s)
  {
  }

  lemma {:induction false} AccessAlways(s: State, actions: seq<Action>)
    requires Init(s) && Run(s, actions).Some?
    ensures var t := Run(s, actions).value; Control(t) && Data(t) && Access(t) && Cleared(t)
  {
    hide Init, Control, Data, Access, Cleared, Enabled, Apply;
    DataAlways(s, actions);
    if actions == [] {
      AccessInit(s);
    } else {
      var t, a := Run(s, actions[..|actions| - 1]).value, actions[|actions| - 1];
      AccessAlways(s, actions[..|actions| - 1]);
      ClearedStep(t, a);
      AccessStep(t, a);
    }
  }

  lemma AccessStep(s: State, a: Action)
    requires Control(s) && Data(s) && Access(s) && Cleared(s) && Enabled(s, a)
    ensures Shapes(Apply(s, a)) && Access(Apply(s, a))
  {
    ControlStep(s, a);
    hide Act, CanAct, Enabled, Cleared, Data, ReaderOk, WriterOk;
    PlacesKept(s, a);
    var t := Apply(s, a);
    forall j | 0 <= j < |t.procs|
      ensures ReaderOk(t.procs[j], t.slots[t.procs[j].slot]) && WriterOk(t.procs[j], t.slots[t.procs[j].slot])
    {
      AccessFor(s, a, j);
    }
  }

  // ---------------------------------------------------------------- results

  /** In every run, for every process: a handle's count is at most its slot's and a level
      one points at the live block, so comparing the counts finds every stale handle.
      From its refresh to its end a routine points at the live block, with the mutex
      (publishers) or without (readers); each byte it loads or stores lies inside. */
  lemma StaleHandlesAreDetected(init: State, actions: seq<Action>, s: State, i: nat)
    requires Init(init) && Run(init, actions) == Some(s) && i < |s.procs|
    ensures s.procs[i].slot < |s.slots|
    ensures var p, x := s.procs[i], s.slots[s.procs[i].slot];
      && (p.handle.Handle? ==> p.handle.resizeCount <= x.desc.resizeCount)
      && (p.handle.Handle? && p.handle.resizeCount == x.desc.resizeCount ==> p.handle.ptr == x.block.id)
      && PointsAtLiveBlock(Refreshed(p.handle, x), x)
      && (RefreshedLoc(p.loc) || p.loc.WOpen? || p.loc.WRead? ==> PointsAtLiveBlock(p.handle, x))
      && (p.loc.WRead? && |p.acc| < p.limit ==> |p.acc| < |x.block.bytes|)
      && (p.loc.SWrite? && p.pos < |p.msg| && !Overruns(p.pos, |p.msg|, x.desc.size) ==> p.pos < |x.block.bytes|)
  {
    AccessAlways(init, actions);
  }

  /** In every run, no step of any process replaces, shortens or lengthens the block
      under a reader that is registered globally. */
  lemma BlockStaysUnderReader(init: State, actions: seq<Action>, s: State, a: Action, j: nat)
    requires Init(init) && Run(init, actions) == Some(s) && Enabled(s, a)
    requires j < |s.procs| && s.procs[j].role.Subscriber? && Registered(s.procs[j], GlobalClients)
    ensures var k := s.procs[j].slot;
      && k < |s.slots| && k < |Apply(s, a).slots|
      && Apply(s, a).slots[k].block.id == s.slots[k].block.id
      && |Apply(s, a).slots[k].block.bytes| == |s.slots[k].block.bytes|
  {
    AccessAlways(init, actions);
    BlockStays(s, a, j);
  }
}
