/** Mutual exclusion, exact client accounting and the absence of lost wake-ups,
    for any number of processes and topics. */
module ProtocolControl {
  import opened Options
  import opened ProtocolModel

  /** What a process holds at a location: the two mutexes and the two registrations. */
  datatype Ctx = Ctx(slotLock: bool, globalLock: bool, slotClient: bool, globalClient: bool)

  function At(l: Loc): Ctx {
    match l
    case Idle | RLock | SLock | WLock | FLock => Ctx(false, false, false, false)
    case RCheck | RStale | RLockG1 | RGrow | RLockG2 | RRecord | RUnlock => Ctx(true, false, false, false)
    case RCheckG1 | RRefresh | RUnlockG1 | RCheckG2 | RRecreate | RUnlockG2 => Ctx(true, true, false, false)
    case SCheck | SLockG | SSignal | SUnlock => Ctx(true, false, false, false)
    case SInc => Ctx(true, true, false, false)
    case SUnlockG | SDec => Ctx(true, true, false, true)
    case SRefresh | SWrite | SLockG2 | SUnwind => Ctx(true, false, false, true)
    case SUnlockG2 => Ctx(true, true, false, false)
    case Thrown => Ctx(false, false, false, true)
    case WWait | WInc | WTimeout => Ctx(true, false, false, false)
    case WLockG => Ctx(true, false, true, false)
    case WIncG => Ctx(true, true, true, false)
    case WUnlockG => Ctx(true, true, true, true)
    case WUnlock => Ctx(true, false, true, true)
    case WRefresh | WOpen | WRead | WLockG2 => Ctx(false, false, true, true)
    case WDecG => Ctx(false, true, true, true)
    case WUnlockG2 => Ctx(false, true, true, false)
    case WLock2 => Ctx(false, false, true, false)
    case WDec => Ctx(true, false, true, false)
    case WUnlock2 => Ctx(true, false, false, false)
    case FCheck | FConnect | FUnlock => Ctx(false, true, false, false)
  }

  function RoleOf(l: Loc): Option<Role> {
    match l
    case Idle => None
    case RLock | RCheck | RStale | RLockG1 | RCheckG1 | RRefresh | RUnlockG1 | RGrow | RLockG2 | RCheckG2
       | RRecreate | RUnlockG2 | RRecord | RUnlock | SLock | SCheck | SLockG | SInc | SUnlockG | SRefresh
       | SWrite | SLockG2 | SDec | SUnlockG2 | SSignal | SUnlock | SUnwind | Thrown => Some(Publisher)
    case WLock | WWait | WInc | WLockG | WIncG | WUnlockG | WUnlock | WRefresh | WOpen | WRead | WLockG2
       | WDecG | WUnlockG2 | WLock2 | WDec | WUnlock2 | WTimeout | FLock | FCheck | FConnect | FUnlock =>
      Some(Subscriber)
  }

  predicate ReleasedSlot(m: Mode) {
    m.LockWait? || m.LockWoken? || m.DataWait? || m.DataWoken? || m.DataExpired?
  }

  predicate ReleasedGlobal(m: Mode) {
    m.GlobalWait? || m.GlobalWoken?
  }

  predicate HoldsSlot(p: Proc) {
    At(p.loc).slotLock && !ReleasedSlot(p.mode)
  }

  predicate HoldsGlobal(p: Proc) {
    At(p.loc).globalLock && !ReleasedGlobal(p.mode)
  }

  // ---------------------------------------------------------------- counting clients

  datatype Counter = SlotClients(k: nat) | GlobalClients

  predicate Registered(p: Proc, c: Counter) {
    match c
    case SlotClients(k) => p.slot == k && At(p.loc).slotClient
    case GlobalClients => At(p.loc).globalClient
  }

  function Weight(p: Proc, c: Counter): nat {
    if Registered(p, c) then 1 else 0
  }

  function Count(ps: seq<Proc>, c: Counter): nat {
    if ps == [] then 0 else Count(ps[..|ps| - 1], c) + Weight(ps[|ps| - 1], c)
  }

  /** Changing one process changes the count by that process alone. */
  lemma {:induction false} CountUpdate(ps: seq<Proc>, i: nat, p: Proc, c: Counter)
    requires i < |ps|
    ensures Count(ps[i := p], c) == Count(ps, c) - Weight(ps[i], c) + Weight(p, c)
  {
    var n := |ps| - 1;
    if i < n {
      assert ps[i := p][..n] == ps[..n][i := p];
      CountUpdate(ps[..n], i, p, c);
    } else {
      assert ps[i := p][..n] == ps[..n];
    }
  }

  lemma {:induction false} CountSame(ps: seq<Proc>, qs: seq<Proc>, c: Counter)
    requires |ps| == |qs| && forall j | 0 <= j < |ps| :: Registered(ps[j], c) == Registered(qs[j], c)
    ensures Count(ps, c) == Count(qs, c)
  {
    if ps != [] {
      CountSame(ps[..|ps| - 1], qs[..|ps| - 1], c);
    }
  }

  lemma CountNotify(ps: seq<Proc>, k: nat, cond: Option<Cond>, c: Counter)
    ensures Count(Notify(ps, k, cond), c) == Count(ps, c)
  {
    forall j | 0 <= j < |ps|
      ensures Registered(ps[j], c) == Registered(Notify(ps, k, cond)[j], c)
    {
      assert Notify(ps, k, cond)[j] == Wake(ps[j], k, cond);
    }
    CountSame(ps, Notify(ps, k, cond), c);
  }

  /** The count is positive exactly when some process is registered. */
  lemma {:induction false} CountPositive(ps: seq<Proc>, c: Counter)
    ensures Count(ps, c) > 0 <==> exists j :: 0 <= j < |ps| && Registered(ps[j], c)
  {
    if ps != [] {
      var n := |ps| - 1;
      CountPositive(ps[..n], c);
      if Count(ps[..n], c) > 0 {
        var j :| 0 <= j < n && Registered(ps[..n][j], c);
        assert Registered(ps[j], c);
      }
      if j :| 0 <= j < |ps| && Registered(ps[j], c) {
        assert j < n ==> Registered(ps[..n][j], c);
      }
    }
  }

  // ---------------------------------------------------------------- invariant

  predicate ShapeIn(n: nat, p: Proc) {
    && p.slot < n
    && RoleOf(p.loc) in {None, Some(p.role)}
    && (p.mode.LockWait? || p.mode.LockWoken? ==> InstrAt(p.loc).CheckSlot?)
    && (ReleasedGlobal(p.mode) ==> InstrAt(p.loc).CheckGlobal?)
    && (p.mode.DataWait? || p.mode.DataWoken? || p.mode.DataExpired? ==> p.loc.WWait?)
  }

  /** The recorded owner of a mutex is the one process that holds it. */
  ghost predicate Owners(s: State)
    requires Shapes(s)
  {
    && (forall i | 0 <= i < |s.procs| && HoldsSlot(s.procs[i]) :: s.slots[s.procs[i].slot].owner == Some(i))
    && (forall k | 0 <= k < |s.slots| && s.slots[k].owner.Some? ::
          var i := s.slots[k].owner.value; i < |s.procs| && HoldsSlot(s.procs[i]) && s.procs[i].slot == k)
    && (forall i | 0 <= i < |s.procs| && HoldsGlobal(s.procs[i]) :: s.gowner == Some(i))
    && (s.gowner.Some? ==> s.gowner.value < |s.procs| && HoldsGlobal(s.procs[s.gowner.value]))
  }

  /** Each counter is the number of processes inside the section it guards. */
  ghost predicate Counts(s: State) {
    && (forall k | 0 <= k < |s.slots| :: s.slots[k].clients == Count(s.procs, SlotClients(k)))
    && s.gclients == Count(s.procs, GlobalClients)
  }

  /** A process still waiting for clients to leave has a client to wait for. */
  ghost predicate Wakeups(s: State)
    requires Shapes(s)
  {
    && (forall i | 0 <= i < |s.procs| && s.procs[i].mode.LockWait? :: s.slots[s.procs[i].slot].clients > 0)
    && (forall i | 0 <= i < |s.procs| && s.procs[i].mode.GlobalWait? :: s.gclients > 0)
  }

  ghost predicate Shapes(s: State) {
    forall i | 0 <= i < |s.procs| :: ShapeIn(|s.slots|, s.procs[i])
  }

  ghost predicate Control(s: State) {
    Shapes(s) && Owners(s) && Counts(s) && Wakeups(s)
  }

  // ---------------------------------------------------------------- preservation

  lemma ControlInit(s: State)
    requires Init(s)
    ensures Control(s)
  {
    forall c | true
      ensures Count(s.procs, c) == 0
    {
      CountPositive(s.procs, c);
    }
  }

  /** What one step does to its own view, as far as mutexes and counters go. */
  predicate Disciplined(i: nat, v: View, e: Effect) {
    var w := e.v;
    && w.p.slot == v.p.slot && w.p.role == v.p.role
    && (w.x.owner == Some(i) <==> HoldsSlot(w.p))
    && (w.gowner == Some(i) <==> HoldsGlobal(w.p))
    && (w.x.owner != v.x.owner ==> v.x.owner in {None, Some(i)} && w.x.owner in {None, Some(i)})
    && (w.gowner != v.gowner ==> v.gowner in {None, Some(i)} && w.gowner in {None, Some(i)})
    && w.x.clients - v.x.clients == Weight(w.p, SlotClients(v.p.slot)) - Weight(v.p, SlotClients(v.p.slot))
    && w.gclients - v.gclients == Weight(w.p, GlobalClients) - Weight(v.p, GlobalClients)
    && (w.p.mode.LockWait? ==> w.x.clients > 0)
    && (w.p.mode.GlobalWait? ==> w.gclients > 0)
    && (w.x.clients <= 0 < v.x.clients ==> e.signal == Some(LockCond))
    && (w.gclients <= 0 < v.gclients ==> e.signal == Some(GlobalCond))
  }

  /** The context an instruction leaves behind. */
  function AfterInstr(c: Ctx, m: Instr): Ctx {
    match m
    case LockSlot => c.(slotLock := true)
    case UnlockSlot => c.(slotLock := false)
    case LockGlobal => c.(globalLock := true)
    case UnlockGlobal => c.(globalLock := false)
    case IncSlot => c.(slotClient := true)
    case DecSlot => c.(slotClient := false)
    case IncGlobal => c.(globalClient := true)
    case DecGlobal => c.(globalClient := false)
    case _ => c
  }

  /** When an instruction may stand in a routine: a mutex is taken at most once,
      the slot mutex before the global one, and a counter is changed only under
      its mutex and only in turn. */
  predicate Allowed(c: Ctx, m: Instr) {
    match m
    case LockSlot => !c.slotLock && !c.globalLock && !c.globalClient
    case UnlockSlot => c.slotLock && !c.globalLock
    case LockGlobal => !c.globalLock
    case UnlockGlobal => c.globalLock
    case CheckSlot => c == Ctx(true, false, false, false)
    case WaitData => c == Ctx(true, false, false, false)
    case CheckGlobal => c.globalLock && !c.slotClient && !c.globalClient
    case IncSlot => c.slotLock && !c.slotClient
    case DecSlot => c.slotLock && c.slotClient
    case IncGlobal => c.globalLock && !c.globalClient
    case DecGlobal => c.globalLock && c.globalClient
    case SignalData => c.slotLock
    case Local => true
    case Halt => !c.slotLock && !c.globalLock && !c.slotClient
  }

  lemma PublishersAreDisciplined(l: Loc)
    requires RoleOf(l) != Some(Subscriber)
    ensures Allowed(At(l), InstrAt(l))
  {
  }

  lemma SubscribersAreDisciplined(l: Loc)
    requires RoleOf(l) == Some(Subscriber)
    ensures Allowed(At(l), InstrAt(l))
  {
  }

  /** The three routines keep the discipline at every location. */
  lemma RoutinesAreDisciplined(l: Loc)
    ensures Allowed(At(l), InstrAt(l))
  {
    if RoleOf(l) == Some(Subscriber) {
      SubscribersAreDisciplined(l);
    } else {
      PublishersAreDisciplined(l);
    }
  }

  lemma PublisherFollows(l: Loc)
    requires RoleOf(l) == Some(Publisher) && !InstrAt(l).Local? && !InstrAt(l).Halt?
    ensures At(Succ(l)) == AfterInstr(At(l), InstrAt(l))
  {
  }

  lemma SubscriberFollows(l: Loc)
    requires RoleOf(l) == Some(Subscriber) && !InstrAt(l).Local?
    ensures At(Succ(l)) == AfterInstr(At(l), InstrAt(l))
  {
  }

  lemma RoutinesFollowInstructions(l: Loc)
    ensures !InstrAt(l).Local? && !InstrAt(l).Halt? ==> At(Succ(l)) == AfterInstr(At(l), InstrAt(l))
  {
    if !InstrAt(l).Local? && !InstrAt(l).Halt? {
      assert RoleOf(l).Some?;
      hide InstrAt, At, Succ, RoleOf;
      if RoleOf(l) == Some(Publisher) {
        PublisherFollows(l);
      } else {
        SubscriberFollows(l);
      }
    }
  }

  lemma RoutinesStayApart(l: Loc)
    ensures Succ(l).Idle? || RoleOf(Succ(l)) == RoleOf(l)
  {
  }

  lemma LocalKeepsContext(x: Slot, p: Proc)
    requires InstrAt(p.loc).Local?
    ensures var l := LocalStep(x, p).1.loc; At(l) == At(p.loc) && RoleOf(l) == RoleOf(p.loc)
  {
    hide Recreated, Stored, Loaded, Refreshed;
    match p.loc
    case SWrite =>
    case WRead =>
    case RStale | RGrow =>
    case _ =>
  }

  lemma LocalKeepsMutexes(x: Slot, p: Proc)
    requires InstrAt(p.loc).Local?
    ensures var (y, q) := LocalStep(x, p);
      && y.owner == x.owner && y.clients == x.clients
      && (p.mode.Running? ==> q.mode.Running?) && q.slot == p.slot && q.role == p.role
  {
    hide Refreshed, Overruns;
    match p.loc
    case SWrite =>
    case RRecreate | RRecord =>
    case WRead =>
    case _ =>
  }

  lemma LocalIsDisciplined(x: Slot, p: Proc)
    requires InstrAt(p.loc).Local?
    ensures var (y, q) := LocalStep(x, p);
      && y.owner == x.owner && y.clients == x.clients
      && At(q.loc) == At(p.loc) && RoleOf(q.loc) == RoleOf(p.loc)
      && (p.mode.Running? ==> q.mode.Running?) && q.slot == p.slot && q.role == p.role
  {
    LocalKeepsContext(x, p);
    LocalKeepsMutexes(x, p);
    hide LocalStep, At, RoleOf;
  }

  lemma ExecIsDisciplined(i: nat, v: View)
    requires v.p.mode.Running? && CanStep(v)
    requires v.x.owner == Some(i) <==> HoldsSlot(v.p)
    requires v.gowner == Some(i) <==> HoldsGlobal(v.p)
    requires v.x.clients >= 0 && v.gclients >= 0
    ensures Disciplined(i, v, Exec(i, v))
  {
    var l := v.p.loc;
    if InstrAt(l).Local? {
      LocalIsDisciplined(v.x, v.p);
      hide At, Succ, LocalStep;
    } else {
      RoutinesAreDisciplined(l);
      RoutinesFollowInstructions(l);
      hide At, Succ, LocalStep;
      var w := Exec(i, v).v;
      if w.p.mode.Running? && !InstrAt(l).Halt? {
        assert At(w.p.loc) == AfterInstr(At(l), InstrAt(l));
      }
    }
  }

  lemma ReacquireIsDisciplined(i: nat, v: View, n: nat)
    requires !v.p.mode.Running? && CanStep(v) && ShapeIn(n, v.p)
    requires v.x.owner == Some(i) <==> HoldsSlot(v.p)
    requires v.gowner == Some(i) <==> HoldsGlobal(v.p)
    requires v.x.clients >= 0 && v.gclients >= 0
    ensures Disciplined(i, v, Effect(Reacquire(i, v), None))
  {
    RoutinesFollowInstructions(v.p.loc);
  }

  lemma ActIsDisciplined(v: View, a: Action, n: nat)
    requires CanAct(v, a) && ShapeIn(n, v.p)
    requires v.x.owner == Some(a.i) <==> HoldsSlot(v.p)
    requires v.gowner == Some(a.i) <==> HoldsGlobal(v.p)
    requires v.x.clients >= 0 && v.gclients >= 0
    ensures Disciplined(a.i, v, Act(v, a))
  {
    if a.Step? {
      hide Disciplined, CanStep, HoldsSlot, HoldsGlobal;
      if v.p.mode.Running? {
        ExecIsDisciplined(a.i, v);
      } else {
        ReacquireIsDisciplined(a.i, v, n);
      }
    } else {
      BeginIsDisciplined(v, a, n);
    }
  }

  lemma BeginIsDisciplined(v: View, a: Action, n: nat)
    requires CanAct(v, a) && ShapeIn(n, v.p) && !a.Step?
    requires v.x.owner == Some(a.i) <==> HoldsSlot(v.p)
    requires v.gowner == Some(a.i) <==> HoldsGlobal(v.p)
    requires v.x.clients >= 0 && v.gclients >= 0
    ensures Disciplined(a.i, v, Act(v, a))
  {
    assert At(RLock) == At(WLock) == At(FLock) == At(Idle) == Ctx(false, false, false, false);
    hide At, RoleOf, InstrAt, Exec, Reacquire;
  }

  // ---------------------------------------------------------------- steps that touch no data

  predicate IsDataStep(v: View, a: Action) {
    a.Step? && v.p.mode.Running? && InstrAt(v.p.loc).Local?
  }

  /** Where such a step can take process p: on, into a wait, or into a routine. */
  predicate Moves(p: Proc, a: Action, q: Proc) {
    match a
    case BeginPublish(_, m) => p.role.Publisher? && p.loc.Idle? && q == Goto(p, RLock).(msg := m)
    case BeginReceive(_) => p.role.Subscriber? && p.loc.Idle? && q == Goto(p, WLock)
    case BeginFind(_) => p.role.Subscriber? && p.loc.Idle? && q == Goto(p, FLock)
    case Expire(_) => p.mode.DataWait? && q == p.(mode := DataExpired)
    case Step(_) =>
      && !InstrAt(p.loc).Local? && !InstrAt(p.loc).Halt? && !p.mode.LockWait? && !p.mode.GlobalWait?
      && ((q == Goto(p, Succ(p.loc)) && (p.loc.WWait? ==> p.mode.DataWoken?))
          || (p.loc.WWait? && (q == Goto(p, WTimeout) || q == p.(mode := DataWait)))
          || (InstrAt(p.loc).CheckSlot? && q == p.(mode := LockWait))
          || (InstrAt(p.loc).CheckGlobal? && q == p.(mode := GlobalWait)))
  }

  lemma OtherSteps(v: View, a: Action, n: nat)
    requires CanAct(v, a) && ShapeIn(n, v.p) && !IsDataStep(v, a)
    ensures var w := Act(v, a).v;
      Moves(v.p, a, w.p) && w.x == v.x.(owner := w.x.owner, clients := w.x.clients)
    ensures Act(v, a).signal == Some(DataCond) ==> InstrAt(v.p.loc).SignalData?
  {
    if a.Step? && !v.p.mode.Running? {
      assert !InstrAt(v.p.loc).Local?;
    }
  }

  lemma ActKeepsShape(v: View, a: Action, n: nat)
    requires CanAct(v, a) && ShapeIn(n, v.p)
    ensures ShapeIn(n, Act(v, a).v.p)
  {
    if IsDataStep(v, a) {
      LocalIsDisciplined(v.x, v.p);
    } else {
      OtherSteps(v, a, n);
      RoutinesStayApart(v.p.loc);
      hide Act, CanAct, Succ;
    }
  }

  lemma ViewInv(s: State, i: nat)
    requires Control(s) && i < |s.procs|
    ensures ValidProc(s, i)
    ensures var v := ViewOf(s, i);
      && ShapeIn(|s.slots|, v.p)
      && (v.x.owner == Some(i) <==> HoldsSlot(v.p))
      && (v.gowner == Some(i) <==> HoldsGlobal(v.p))
      && v.x.clients >= 0 && v.gclients >= 0
  {
  }

  /** Ending a wait changes neither what a process holds nor where it is. */
  lemma WakeKeeps(p: Proc, k: nat, c: Option<Cond>, n: nat)
    ensures var q := Wake(p, k, c);
      && q.slot == p.slot && q.loc == p.loc
      && HoldsSlot(q) == HoldsSlot(p) && HoldsGlobal(q) == HoldsGlobal(p)
      && ShapeIn(n, q) == ShapeIn(n, p)
  {
  }

  lemma InstalledProc(s: State, i: nat, e: Effect, j: nat)
    requires Shapes(s) && i < |s.procs| && j < |s.procs|
    requires ShapeIn(|s.slots|, e.v.p)
    ensures var q := Install(s, i, e).procs[j]; var p := if j == i then e.v.p else s.procs[j];
      && ShapeIn(|s.slots|, q)
      && HoldsSlot(q) == HoldsSlot(p) && HoldsGlobal(q) == HoldsGlobal(p) && q.slot == p.slot
      && (q.mode.LockWait? ==> p.mode.LockWait? && !(p.slot == s.procs[i].slot && e.signal == Some(LockCond)))
      && (q.mode.GlobalWait? ==> p.mode.GlobalWait? && e.signal != Some(GlobalCond))
  {
    WakeKeeps(if j == i then e.v.p else s.procs[j], s.procs[i].slot, e.signal, |s.slots|);
  }

  lemma OwnersInstall(s: State, i: nat, e: Effect)
    requires Control(s) && i < |s.procs|
    requires ShapeIn(|s.slots|, e.v.p) && Disciplined(i, ViewOf(s, i), e)
    ensures Shapes(Install(s, i, e)) && Owners(Install(s, i, e))
  {
    var t := Install(s, i, e);
    forall j | 0 <= j < |s.procs|
      ensures ShapeIn(|t.slots|, t.procs[j])
      ensures HoldsSlot(t.procs[j]) ==> t.slots[t.procs[j].slot].owner == Some(j)
      ensures HoldsGlobal(t.procs[j]) ==> t.gowner == Some(j)
    {
      InstalledProc(s, i, e, j);
    }
    forall k | 0 <= k < |t.slots| && t.slots[k].owner.Some?
      ensures var j := t.slots[k].owner.value;
        j < |t.procs| && HoldsSlot(t.procs[j]) && t.procs[j].slot == k
    {
      InstalledProc(s, i, e, i);
      var j := t.slots[k].owner.value;
      if j != i {
        assert s.slots[k].owner == Some(j);
        InstalledProc(s, i, e, j);
      }
    }
    if t.gowner.Some? && t.gowner != Some(i) {
      InstalledProc(s, i, e, t.gowner.value);
    } else {
      InstalledProc(s, i, e, i);
    }
  }

  lemma CountsInstall(s: State, i: nat, e: Effect)
    requires Control(s) && i < |s.procs|
    requires ShapeIn(|s.slots|, e.v.p) && Disciplined(i, ViewOf(s, i), e)
    ensures Counts(Install(s, i, e))
  {
    var t := Install(s, i, e);
    forall c | true
      ensures Count(t.procs, c) == Count(s.procs, c) - Weight(s.procs[i], c) + Weight(e.v.p, c)
    {
      CountUpdate(s.procs, i, e.v.p, c);
      CountNotify(s.procs[i := e.v.p], s.procs[i].slot, e.signal, c);
    }
    forall k | 0 <= k < |t.slots|
      ensures t.slots[k].clients == Count(t.procs, SlotClients(k))
    {
      if k != s.procs[i].slot {
        assert Weight(e.v.p, SlotClients(k)) == Weight(s.procs[i], SlotClients(k)) == 0;
      }
    }
  }

  lemma WakeupsInstall(s: State, i: nat, e: Effect)
    requires Control(s) && i < |s.procs|
    requires ShapeIn(|s.slots|, e.v.p) && Disciplined(i, ViewOf(s, i), e)
    requires Shapes(Install(s, i, e))
    ensures Wakeups(Install(s, i, e))
  {
    var t := Install(s, i, e);
    forall j | 0 <= j < |s.procs|
      ensures t.procs[j].mode.LockWait? ==> t.slots[t.procs[j].slot].clients > 0
      ensures t.procs[j].mode.GlobalWait? ==> t.gclients > 0
    {
      InstalledProc(s, i, e, j);
    }
  }

  lemma ControlStep(s: State, a: Action)
    requires Control(s) && Enabled(s, a)
    ensures Control(Apply(s, a))
  {
    ViewInv(s, a.i);
    ActIsDisciplined(ViewOf(s, a.i), a, |s.slots|);
    ActKeepsShape(ViewOf(s, a.i), a, |s.slots|);
    var e := Act(ViewOf(s, a.i), a);
    OwnersInstall(s, a.i, e);
    CountsInstall(s, a.i, e);
    WakeupsInstall(s, a.i, e);
  }

  /** What a step of process a.i leaves of process j and of the slots. */
  lemma OthersAreWoken(s: State, a: Action, j: nat)
    requires Control(s) && Enabled(s, a) && j < |s.procs|
    ensures var e := Act(ViewOf(s, a.i), a); var t := Apply(s, a);
      && |t.procs| == |s.procs| && |t.slots| == |s.slots| && t.gclients == e.v.gclients
      && t.procs[j] == Wake(if j == a.i then e.v.p else s.procs[j], s.procs[a.i].slot, e.signal)
      && t.slots == s.slots[s.procs[a.i].slot := e.v.x]
  {
    hide Act, CanAct, Control;
  }

  lemma StepKeepsPlace(s: State, a: Action, j: nat)
    requires Control(s) && Enabled(s, a) && j < |s.procs|
    ensures j < |Apply(s, a).procs|
    ensures Apply(s, a).procs[j].slot == s.procs[j].slot && Apply(s, a).procs[j].role == s.procs[j].role
  {
    assert ShapeIn(|s.slots|, s.procs[a.i]);
    ActKeepsPlace(ViewOf(s, a.i), a, |s.slots|);
    OthersAreWoken(s, a, j);
    hide Act, CanAct, Apply, Control, Enabled;
  }

  lemma PlacesKept(s: State, a: Action)
    requires Control(s) && Enabled(s, a)
    ensures |Apply(s, a).procs| == |s.procs|
    ensures forall j | 0 <= j < |s.procs| ::
      Apply(s, a).procs[j].slot == s.procs[j].slot && Apply(s, a).procs[j].role == s.procs[j].role
  {
    OthersAreWoken(s, a, a.i);
    hide Act, CanAct, Apply, Control, Enabled;
    forall j: nat | j < |s.procs|
      ensures Apply(s, a).procs[j].slot == s.procs[j].slot && Apply(s, a).procs[j].role == s.procs[j].role
    {
      StepKeepsPlace(s, a, j);
    }
  }

  lemma ActKeepsPlace(v: View, a: Action, n: nat)
    requires CanAct(v, a) && ShapeIn(n, v.p)
    ensures Act(v, a).v.p.slot == v.p.slot && Act(v, a).v.p.role == v.p.role
  {
    if IsDataStep(v, a) {
      LocalKeepsMutexes(v.x, v.p);
    } else {
      OtherSteps(v, a, n);
      hide Act, CanAct, Succ, InstrAt;
    }
  }

  lemma NotifiesAtZero(v: View, a: Action)
    requires CanAct(v, a) && Act(v, a).signal == Some(GlobalCond)
    ensures Act(v, a).v.gclients == 0
  {
  }

  lemma OneSlotHolder(s: State, i: nat, j: nat)
    requires Control(s) && i < |s.procs| && j < |s.procs| && s.procs[i].slot == s.procs[j].slot
    requires HoldsSlot(s.procs[i]) && HoldsSlot(s.procs[j])
    ensures i == j
  {
  }

  lemma {:induction false} ControlAlways(s: State, actions: seq<Action>)
    requires Init(s) && Run(s, actions).Some?
    ensures Control(Run(s, actions).value)
  {
    if actions == [] {
      ControlInit(s);
    } else {
      ControlAlways(s, actions[..|actions| - 1]);
      ControlStep(Run(s, actions[..|actions| - 1]).value, actions[|actions| - 1]);
    }
  }

  // ---------------------------------------------------------------- results

  /** In every run each mutex has at most one holder and its record names it. */
  lemma MutualExclusion(init: State, actions: seq<Action>, s: State, i: nat, j: nat)
    requires Init(init) && Run(init, actions) == Some(s)
    requires i < |s.procs| && j < |s.procs|
    ensures s.procs[i].slot == s.procs[j].slot && HoldsSlot(s.procs[i]) && HoldsSlot(s.procs[j]) ==> i == j
    ensures HoldsGlobal(s.procs[i]) && HoldsGlobal(s.procs[j]) ==> i == j
  {
    ControlAlways(init, actions);
  }

  lemma ReaderSectionsNest(l: Loc)
    requires RoleOf(l) == Some(Subscriber)
    ensures At(l).globalClient ==> At(l).slotClient
  {
  }

  /** In every run the two counters are exact, so the source's assertions that they
      are not negative hold, and a reader's global registration lies inside its
      registration on the slot. */
  lemma ClientAccounting(init: State, actions: seq<Action>, s: State)
    requires Init(init) && Run(init, actions) == Some(s)
    ensures s.gclients == Count(s.procs, GlobalClients) >= 0
    ensures forall k | 0 <= k < |s.slots| :: s.slots[k].clients == Count(s.procs, SlotClients(k)) >= 0
    ensures forall i | 0 <= i < |s.procs| && s.procs[i].role.Subscriber? && Registered(s.procs[i], GlobalClients) ::
              Registered(s.procs[i], SlotClients(s.procs[i].slot))
  {
    ControlAlways(init, actions);
    forall i | 0 <= i < |s.procs| && s.procs[i].role.Subscriber? && Registered(s.procs[i], GlobalClients)
      ensures Registered(s.procs[i], SlotClients(s.procs[i].slot))
    {
      ReaderSectionsNest(s.procs[i].loc);
    }
  }

  /** In every run a process that waits and has not been notified has a client to
      wait for; and the step by which the last client leaves notifies every waiter. */
  lemma NoLostWakeup(init: State, actions: seq<Action>, s: State, a: Action)
    requires Init(init) && Run(init, actions) == Some(s) && Enabled(s, a)
    ensures forall i | 0 <= i < |s.procs| && s.procs[i].mode.LockWait? ::
              s.procs[i].slot < |s.slots| && s.slots[s.procs[i].slot].clients > 0
    ensures forall i | 0 <= i < |s.procs| && s.procs[i].mode.GlobalWait? :: s.gclients > 0
    ensures var t := Apply(s, a);
      forall i | 0 <= i < |t.procs| && s.procs[i].mode.LockWait? && t.slots[t.procs[i].slot].clients == 0 ::
        t.procs[i].mode.LockWoken?
    ensures var t := Apply(s, a);
      forall i | 0 <= i < |t.procs| && s.procs[i].mode.GlobalWait? && t.gclients == 0 ::
        t.procs[i].mode.GlobalWoken?
  {
    ControlAlways(init, actions);
    ControlStep(s, a);
    PlacesKept(s, a);
    WaitEndsOnlyByNotify(s, a);
    hide Act, CanAct, Apply, Init, Count, Owners, Counts, Enabled, ShapeIn;
  }

  /** A process in an untimed wait takes no step of its own; only a notification moves it. */
  lemma WaitEndsOnlyByNotify(s: State, a: Action)
    requires Control(s) && Enabled(s, a)
    ensures forall i | 0 <= i < |s.procs| && s.procs[i].mode.LockWait? ::
              Apply(s, a).procs[i] in {s.procs[i], s.procs[i].(mode := LockWoken)}
    ensures forall i | 0 <= i < |s.procs| && s.procs[i].mode.GlobalWait? ::
              Apply(s, a).procs[i] in {s.procs[i], s.procs[i].(mode := GlobalWoken)}
  {
    assert ShapeIn(|s.slots|, s.procs[a.i]);
    WaitersDoNotAct(ViewOf(s, a.i), a, |s.slots|);
    hide Act, CanAct, Control, Apply;
    forall i | 0 <= i < |s.procs| && (s.procs[i].mode.LockWait? || s.procs[i].mode.GlobalWait?)
      ensures Apply(s, a).procs[i]
           == Wake(s.procs[i], s.procs[a.i].slot, Act(ViewOf(s, a.i), a).signal)
    {
      OthersAreWoken(s, a, i);
    }
  }

  lemma WaitersDoNotAct(v: View, a: Action, n: nat)
    requires CanAct(v, a) && ShapeIn(n, v.p)
    ensures !v.p.mode.LockWait? && !v.p.mode.GlobalWait?
  {
  }
}
