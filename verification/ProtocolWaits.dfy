/** Who can ever wait for the global clients: a publisher whose block can still grow, and
    a subscriber that has no handle yet. */
module ProtocolWaits {
  import opened Options
  import opened Bytes
  import opened ProtocolModel
  import opened ProtocolControl
  import opened ProtocolData

  predicate CanEverWait(s: State, i: nat)
    requires ValidProc(s, i)
  {
    || s.procs[i].handle.NoHandle?
    || (s.procs[i].role.Publisher? && s.slots[s.procs[i].slot].desc.capacity + 1 < UINT32)
  }

  /** Where a publisher or a subscriber looks for a block anew. */
  predicate Searches(l: Loc) {
    match l
    case RLockG1 | RCheckG1 | RRefresh | RUnlockG1 | RLockG2 | RCheckG2 | RRecreate | RUnlockG2
       | FLock | FCheck | FConnect | FUnlock => true
    case _ => false
  }

  /** A process that has its block, which has the greatest length there is. */
  predicate Settled(p: Proc, x: Slot) {
    && p.handle.Handle? && !Searches(p.loc)
    && (p.role.Publisher? ==> x.desc.capacity + 1 == UINT32 && p.handle.resizeCount == x.desc.resizeCount)
  }

  predicate SameBlocks(x: Slot, y: Slot) {
    y.desc.capacity == x.desc.capacity && y.desc.resizeCount == x.desc.resizeCount
  }

  ghost predicate AllSettled(s: State)
    requires Shapes(s)
  {
    forall i | 0 <= i < |s.procs| :: Settled(s.procs[i], s.slots[s.procs[i].slot])
  }

  lemma LocalSettled(x: Slot, p: Proc)
    requires InstrAt(p.loc).Local? && ProcData(p, x) && Settled(p, x) && RoleOf(p.loc) == Some(p.role)
    ensures var (y, q) := LocalStep(x, p); Settled(q, y) && SameBlocks(x, y)
  {
    match p.loc
    case RGrow => assert |p.msg| < UINT32;
    case RStale | RRecord =>
    case SWrite =>
    case WRead =>
    case _ =>
  }

  lemma SearchesFollow(l: Loc)
    ensures !InstrAt(l).Local? && Searches(Succ(l)) ==> Searches(l)
  {
  }

  lemma ActSettled(v: View, a: Action, n: nat)
    requires CanAct(v, a) && ShapeIn(n, v.p) && ProcData(v.p, v.x) && Settled(v.p, v.x)
    ensures var w := Act(v, a).v; Settled(w.p, w.x) && SameBlocks(v.x, w.x)
  {
    if IsDataStep(v, a) {
      LocalSettled(v.x, v.p);
    } else {
      assert !a.BeginFind?;
      OtherSteps(v, a, n);
      SearchesFollow(v.p.loc);
      hide Act, CanAct, Succ, InstrAt, ProcData;
    }
  }

  lemma WakeSettled(p: Proc, k: nat, c: Option<Cond>, x: Slot, y: Slot)
    requires SameBlocks(x, y)
    ensures Settled(Wake(p, k, c), y) == Settled(p, x)
  {
  }

  lemma SettledStep(s: State, a: Action)
    requires Control(s) && Data(s) && AllSettled(s) && Enabled(s, a)
    ensures Shapes(Apply(s, a)) && AllSettled(Apply(s, a))
  {
    ControlStep(s, a);
    var v, t := ViewOf(s, a.i), Apply(s, a);
    var e := Act(v, a);
    assert ShapeIn(|s.slots|, v.p) && ProcData(v.p, v.x) && Settled(v.p, v.x);
    ActSettled(v, a, |s.slots|);
    PlacesKept(s, a);
    hide Act, CanAct, Apply, Control, Data, Settled;
    forall j | 0 <= j < |t.procs|
      ensures Settled(t.procs[j], t.slots[t.procs[j].slot])
    {
      OthersAreWoken(s, a, j);
      var k := t.procs[j].slot;
      if j == a.i {
        WakeSettled(e.v.p, v.p.slot, e.signal, e.v.x, t.slots[k]);
      } else {
        WakeSettled(s.procs[j], v.p.slot, e.signal, s.slots[k], t.slots[k]);
      }
    }
  }

  lemma {:induction false} SettledAlways(s: State, actions: seq<Action>)
    requires Init(s) && Run(s, actions).Some? && Shapes(s) && AllSettled(s)
    ensures var t := Run(s, actions).value; Control(t) && Data(t) && AllSettled(t)
  {
    hide Init, Control, Data, Enabled, Apply, AllSettled;
    DataAlways(s, actions);
    if actions != [] {
      var front := actions[..|actions| - 1];
      SettledAlways(s, front);
      SettledStep(Run(s, front).value, actions[|actions| - 1]);
    }
  }

  lemma InitSettled(s: State)
    requires Init(s) && forall i: nat | ValidProc(s, i) :: !CanEverWait(s, i)
    ensures Shapes(s) && AllSettled(s)
  {
    forall i | 0 <= i < |s.procs|
      ensures ShapeIn(|s.slots|, s.procs[i]) && Settled(s.procs[i], s.slots[s.procs[i].slot])
    {
      assert InitProc(s, s.procs[i]);
      assert InitSlot(s.slots[s.procs[i].slot]);
      assert !CanEverWait(s, i);
    }
  }

  /** Where nobody can ever wait for the global clients, nobody does, in any run. */
  lemma NobodyWaits(init: State, actions: seq<Action>, s: State, j: nat)
    requires Init(init) && Run(init, actions) == Some(s) && j < |s.procs|
    requires forall i: nat | ValidProc(init, i) :: !CanEverWait(init, i)
    ensures !s.procs[j].mode.GlobalWait?
  {
    InitSettled(init);
    SettledAlways(init, actions);
    SettledDoesNotWait(s, j);
    hide Init, CanEverWait, Control, Data, AllSettled;
  }

  lemma SettledDoesNotWait(s: State, j: nat)
    requires Control(s) && AllSettled(s) && j < |s.procs|
    ensures !s.procs[j].mode.GlobalWait?
  {
    assert ShapeIn(|s.slots|, s.procs[j]) && Settled(s.procs[j], s.slots[s.procs[j].slot]);
  }
}
