/** Readers and the writer of a topic with one publisher and one subscriber: the
    publisher changes the slot only while the subscriber is not registered on it,
    although `check_clients` looks at the counter only once. Other topics may have
    any number of processes. */
module ProtocolExclusion {
  import opened Options
  import opened ProtocolModel
  import opened ProtocolControl
  import opened ProtocolData

  /** Slot k has at most one publisher and at most one subscriber. */
  ghost predicate OneToOne(s: State, k: nat) {
    forall i, j | 0 <= i < j < |s.procs| && s.procs[i].slot == s.procs[j].slot == k ::
      s.procs[i].role != s.procs[j].role
  }

  /** The publisher is past `check_clients` and holds the slot mutex. */
  predicate PastCheck(p: Proc) {
    p.role.Publisher? && At(p.loc).slotLock && !InstrAt(p.loc).CheckSlot?
  }

  /** The subscriber has been notified of data and has not registered yet. */
  predicate Pending(p: Proc) {
    p.mode.DataWoken? || p.loc.WInc?
  }

  predicate OnSlot(s: State, i: nat, k: nat) {
    i < |s.procs| && s.procs[i].slot == k
  }

  /** A publisher past its check has no client; one that waits for clients has no
      notified subscriber behind its back, and once notified itself has no client. */
  ghost predicate Excluded(s: State, k: nat)
    requires k < |s.slots|
  {
    && (forall i: nat | OnSlot(s, i, k) && PastCheck(s.procs[i]) :: s.slots[k].clients == 0)
    && (forall i: nat | OnSlot(s, i, k) && s.procs[i].mode.LockWoken? :: s.slots[k].clients == 0)
    && (forall i: nat, j: nat |
          OnSlot(s, i, k) && OnSlot(s, j, k) && (s.procs[i].mode.LockWait? || s.procs[i].mode.LockWoken?) ::
          !Pending(s.procs[j]))
  }

  lemma OneToOneStep(s: State, a: Action, k: nat)
    requires Control(s) && OneToOne(s, k) && Enabled(s, a)
    ensures OneToOne(Apply(s, a), k)
  {
    hide Act, CanAct, Apply, Control;
    PlacesKept(s, a);
  }

  /** A step of the process itself, as far as exclusion goes. */
  lemma ActAndExclusion(v: View, a: Action, n: nat)
    requires CanAct(v, a) && ShapeIn(n, v.p) && v.x.clients >= 0
    ensures var w, e := Act(v, a).v, Act(v, a).signal;
      && (PastCheck(w.p) ==> PastCheck(v.p) || v.p.mode.LockWoken? || v.x.clients == 0)
      && (w.p.mode.LockWait? ==> v.p.mode.LockWait? || (v.p.role.Publisher? && v.x.clients > 0))
      && !w.p.mode.LockWoken?
      && (Pending(w.p) ==> Pending(v.p))
      && (w.x.clients > v.x.clients ==> Pending(v.p) && HoldsSlot(v.p))
      && (e == Some(LockCond) ==> w.x.clients == 0)
      && (e == Some(DataCond) ==> v.p.role.Publisher? && w.p.mode.Running?)
  {
    ActAndCheck(v, a, n);
    ActAndPending(v, a, n);
    ActAndClients(v, a, n);
    hide Act, CanAct, ShapeIn, PastCheck, Pending, HoldsSlot;
  }

  lemma ActAndCheck(v: View, a: Action, n: nat)
    requires CanAct(v, a) && ShapeIn(n, v.p) && v.x.clients >= 0
    ensures var q := Act(v, a).v.p;
      && (PastCheck(q) ==> PastCheck(v.p) || v.p.mode.LockWoken? || v.x.clients == 0)
      && (q.mode.LockWait? ==> v.p.mode.LockWait? || (v.p.role.Publisher? && v.x.clients > 0))
      && !q.mode.LockWoken?
  {
    if IsDataStep(v, a) {
      LocalIsDisciplined(v.x, v.p);
    }
  }

  lemma ActAndPending(v: View, a: Action, n: nat)
    requires CanAct(v, a) && ShapeIn(n, v.p)
    ensures Pending(Act(v, a).v.p) ==> Pending(v.p)
  {
    if IsDataStep(v, a) {
      LocalIsDisciplined(v.x, v.p);
    }
  }

  lemma ActAndClients(v: View, a: Action, n: nat)
    requires CanAct(v, a) && ShapeIn(n, v.p)
    ensures var w, e := Act(v, a).v, Act(v, a).signal;
      && (w.x.clients > v.x.clients ==> Pending(v.p) && HoldsSlot(v.p))
      && (e == Some(LockCond) ==> w.x.clients == 0)
      && (e == Some(DataCond) ==> v.p.role.Publisher? && w.p.mode.Running?)
  {
    if IsDataStep(v, a) {
      LocalKeepsMutexes(v.x, v.p);
    }
  }

  lemma PastCheckHolds(p: Proc, n: nat)
    requires ShapeIn(n, p) && PastCheck(p)
    ensures HoldsSlot(p)
  {
  }

  lemma OnlySubscribersRegister(p: Proc, k: nat, n: nat)
    requires ShapeIn(n, p)
    ensures Registered(p, SlotClients(k)) ==> p.role.Subscriber? && !Pending(p)
    ensures Pending(p) ==> p.role.Subscriber?
    ensures p.mode.LockWait? || p.mode.LockWoken? ==> p.role.Publisher?
  {
  }

  /** With a client registered, a one-to-one slot has no notified subscriber. */
  lemma ClientIsTheSubscriber(s: State, k: nat, m: nat)
    requires Control(s) && OneToOne(s, k) && k < |s.slots| && s.slots[k].clients > 0 && OnSlot(s, m, k)
    ensures s.procs[m].role.Subscriber? ==> Registered(s.procs[m], SlotClients(k))
    ensures !Pending(s.procs[m])
  {
    CountPositive(s.procs, SlotClients(k));
    var c :| 0 <= c < |s.procs| && Registered(s.procs[c], SlotClients(k));
    OnlySubscribersRegister(s.procs[c], k, |s.slots|);
    OnlySubscribersRegister(s.procs[m], k, |s.slots|);
  }

  lemma WakeExclusion(p: Proc, k: nat, c: Option<Cond>)
    ensures var q := Wake(p, k, c);
      && PastCheck(q) == PastCheck(p)
      && (q.mode.LockWoken? ==> p.mode.LockWoken? || c == Some(LockCond))
      && (q.mode.LockWait? ==> p.mode.LockWait?)
      && (q.mode.LockWoken? ==> p.mode.LockWait? || p.mode.LockWoken?)
      && (Pending(q) ==> Pending(p) || (p.mode.DataWait? && c == Some(DataCond)))
  {
    hide At, InstrAt;
  }

  /** The step of a process of the slot, seen by every process j of the slot. */
  lemma ExcludedFor(s: State, a: Action, k: nat, j: nat)
    requires Control(s) && OneToOne(s, k) && k < |s.slots| && Excluded(s, k)
    requires Enabled(s, a) && OnSlot(s, a.i, k) && OnSlot(s, j, k)
    requires Apply(s, a).slots[k].clients >= 0
    ensures var t := Apply(s, a);
      PastCheck(t.procs[j]) || t.procs[j].mode.LockWoken? ==> t.slots[k].clients == 0
  {
    var v := ViewOf(s, a.i);
    var e := Act(v, a);
    assert ShapeIn(|s.slots|, v.p) && ShapeIn(|s.slots|, s.procs[j]);
    ActAndExclusion(v, a, |s.slots|);
    OthersAreWoken(s, a, j);
    hide Act, CanAct, Apply;
    if PastCheck(s.procs[j]) {
      PastCheckHolds(s.procs[j], |s.slots|);
    }
    OnlySubscribersRegister(s.procs[a.i], k, |s.slots|);
    WakeExclusion(if j == a.i then e.v.p else s.procs[j], k, e.signal);
    NotRegistering(s, k, a.i, j);
    hide PastCheck, Pending, HoldsSlot, Control, RoleOf, InstrAt, At;
  }

  /** While one process is past its check or released, no other takes the slot to register. */
  lemma NotRegistering(s: State, k: nat, i: nat, j: nat)
    requires Control(s) && k < |s.slots| && Excluded(s, k) && OnSlot(s, i, k) && OnSlot(s, j, k)
    ensures PastCheck(s.procs[j]) && Pending(s.procs[i]) && HoldsSlot(s.procs[i]) ==> i == j
    ensures s.procs[j].mode.LockWoken? ==> !Pending(s.procs[i])
    ensures PastCheck(s.procs[j]) || s.procs[j].mode.LockWoken? ==> s.slots[k].clients == 0
  {
    if PastCheck(s.procs[j]) {
      assert ShapeIn(|s.slots|, s.procs[j]);
      PastCheckHolds(s.procs[j], |s.slots|);
    }
  }

  lemma ExcludedPair(s: State, a: Action, k: nat, j: nat, m: nat)
    requires Control(s) && OneToOne(s, k) && k < |s.slots| && Excluded(s, k)
    requires Enabled(s, a) && OnSlot(s, a.i, k) && OnSlot(s, j, k) && OnSlot(s, m, k)
    ensures var t := Apply(s, a);
      t.procs[j].mode.LockWait? || t.procs[j].mode.LockWoken? ==> !Pending(t.procs[m])
  {
    var v := ViewOf(s, a.i);
    var e := Act(v, a);
    assert ShapeIn(|s.slots|, v.p) && ShapeIn(|s.slots|, s.procs[j]) && ShapeIn(|s.slots|, s.procs[m]);
    ActAndExclusion(v, a, |s.slots|);
    OthersAreWoken(s, a, j);
    OthersAreWoken(s, a, m);
    hide Act, CanAct, Apply;
    OnlySubscribersRegister(s.procs[j], k, |s.slots|);
    OnlySubscribersRegister(s.procs[m], k, |s.slots|);
    OnlySubscribersRegister(s.procs[a.i], k, |s.slots|);
    if j == a.i && v.x.clients > 0 {
      ClientIsTheSubscriber(s, k, m);
    }
    WakeExclusion(if j == a.i then e.v.p else s.procs[j], k, e.signal);
    WakeExclusion(if m == a.i then e.v.p else s.procs[m], k, e.signal);
    hide PastCheck, Pending, HoldsSlot, Control, RoleOf, InstrAt, At;
  }

  /** A step elsewhere can only end a global wait of a process of slot k. */
  lemma StepElsewhere(s: State, a: Action, k: nat, j: nat)
    requires Control(s) && Enabled(s, a) && k < |s.slots| && !OnSlot(s, a.i, k) && OnSlot(s, j, k)
    ensures var t, p := Apply(s, a), s.procs[j];
      t.slots[k] == s.slots[k]
      && (t.procs[j] == p || (p.mode.GlobalWait? && t.procs[j] == p.(mode := GlobalWoken)))
  {
  }

  lemma ExcludedForAny(s: State, a: Action, k: nat, j: nat)
    requires Control(s) && OneToOne(s, k) && k < |s.slots| && Excluded(s, k) && Enabled(s, a) && OnSlot(s, j, k)
    ensures var t := Apply(s, a);
      && j < |t.procs| && k < |t.slots|
      && (PastCheck(t.procs[j]) || t.procs[j].mode.LockWoken? ==> t.slots[k].clients == 0)
  {
    ControlStep(s, a);
    OthersAreWoken(s, a, j);
    assert Counts(Apply(s, a));
    hide Act, CanAct, Apply, PastCheck, Control, Count;
    if OnSlot(s, a.i, k) {
      ExcludedFor(s, a, k, j);
    } else {
      StepElsewhere(s, a, k, j);
      ElsewhereKeepsCheck(s.procs[j], Apply(s, a).procs[j]);
    }
  }

  lemma ElsewhereKeepsCheck(p: Proc, q: Proc)
    requires q == p || (p.mode.GlobalWait? && q == p.(mode := GlobalWoken))
    ensures PastCheck(q) == PastCheck(p) && Pending(q) == Pending(p)
  {
  }

  lemma ExcludedPairAny(s: State, a: Action, k: nat, j: nat, m: nat)
    requires Control(s) && OneToOne(s, k) && k < |s.slots| && Excluded(s, k) && Enabled(s, a)
    requires OnSlot(s, j, k) && OnSlot(s, m, k)
    ensures var t := Apply(s, a);
      && j < |t.procs| && m < |t.procs|
      && (t.procs[j].mode.LockWait? || t.procs[j].mode.LockWoken? ==> !Pending(t.procs[m]))
  {
    OthersAreWoken(s, a, j);
    hide Act, CanAct, Apply, Pending, Control;
    if OnSlot(s, a.i, k) {
      ExcludedPair(s, a, k, j, m);
    } else {
      StepElsewhere(s, a, k, j);
      StepElsewhere(s, a, k, m);
      ElsewhereKeepsCheck(s.procs[m], Apply(s, a).procs[m]);
    }
  }

  lemma ExcludedStep(s: State, a: Action, k: nat)
    requires Control(s) && OneToOne(s, k) && k < |s.slots| && Excluded(s, k) && Enabled(s, a)
    ensures k < |Apply(s, a).slots| && Excluded(Apply(s, a), k)
  {
    var t := Apply(s, a);
    PlacesKept(s, a);
    OthersAreWoken(s, a, a.i);
    hide Act, CanAct, Apply, Enabled, Control, PastCheck, Pending;
    forall j: nat | OnSlot(t, j, k)
      ensures PastCheck(t.procs[j]) || t.procs[j].mode.LockWoken? ==> t.slots[k].clients == 0
    {
      ExcludedForAny(s, a, k, j);
    }
    forall j: nat, m: nat | OnSlot(t, j, k) && OnSlot(t, m, k)
      ensures t.procs[j].mode.LockWait? || t.procs[j].mode.LockWoken? ==> !Pending(t.procs[m])
    {
      ExcludedPairAny(s, a, k, j, m);
    }
  }

  lemma ExcludedInit(s: State, k: nat)
    requires Init(s) && k < |s.slots|
    ensures Excluded(s, k)
  {
  }

  lemma {:induction false} ExcludedAlways(s: State, actions: seq<Action>, k: nat)
    requires Init(s) && Run(s, actions).Some? && k < |s.slots| && OneToOne(s, k)
    ensures var t := Run(s, actions).value;
      Control(t) && Data(t) && |t.slots| == |s.slots| && OneToOne(t, k) && Excluded(t, k)
  {
    DataAlways(s, actions);
    if actions == [] {
      ExcludedInit(s, k);
    } else {
      var t := Run(s, actions[..|actions| - 1]).value;
      ExcludedAlways(s, actions[..|actions| - 1], k);
      OneToOneStep(t, actions[|actions| - 1], k);
      ExcludedStep(t, actions[|actions| - 1], k);
    }
  }

  /** Exclusion: on a topic with one publisher and one subscriber, a step of any run
      that changes the descriptor, the block or its bytes is the publisher's, and no
      process is registered on the slot then. */
  lemma ReaderWriterExclusion(init: State, actions: seq<Action>, s: State, a: Action, k: nat)
    requires Init(init) && k < |init.slots| && OneToOne(init, k)
    requires Run(init, actions) == Some(s) && Enabled(s, a)
    ensures k < |s.slots|
    ensures !SameStore(s.slots[k], Apply(s, a).slots[k]) ==>
              && OnSlot(s, a.i, k) && s.procs[a.i].role.Publisher?
              && s.slots[k].clients == 0
              && forall j | 0 <= j < |s.procs| :: !Registered(s.procs[j], SlotClients(k))
  {
    ExcludedAlways(init, actions, k);
    hide Init, OneToOne, Run;
    ChangeFindsNobody(s, a, k);
  }

  lemma ChangeFindsNobody(s: State, a: Action, k: nat)
    requires Control(s) && k < |s.slots| && Excluded(s, k) && Enabled(s, a)
    ensures k < |Apply(s, a).slots|
    ensures !SameStore(s.slots[k], Apply(s, a).slots[k]) ==>
              && OnSlot(s, a.i, k) && s.procs[a.i].role.Publisher?
              && s.slots[k].clients == 0
              && forall j | 0 <= j < |s.procs| :: !Registered(s.procs[j], SlotClients(k))
  {
    var v := ViewOf(s, a.i);
    assert ShapeIn(|s.slots|, v.p);
    StoreChangesPastCheck(v, a, |s.slots|);
    CountPositive(s.procs, SlotClients(k));
    OthersAreWoken(s, a, a.i);
    hide Act, CanAct, Apply, Count;
  }

  lemma StoreChangesPastCheck(v: View, a: Action, n: nat)
    requires CanAct(v, a) && ShapeIn(n, v.p)
    ensures SameStore(v.x, Act(v, a).v.x) || PastCheck(v.p)
  {
  }
}
