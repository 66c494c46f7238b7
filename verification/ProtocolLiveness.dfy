/** The protocol wedges only through a stream overrun: as long as no process has left
    `serialize` by one, or none waits for the global clients, some process inside a routine
    can execute its next instruction, without counting on a timed wait to expire or on a
    new routine to start. */
module ProtocolLiveness {
  import opened Options
  import opened ProtocolModel
  import opened ProtocolControl

  /** Some process other than an idle one can execute its next instruction. */
  ghost predicate CanProceed(s: State) {
    exists j :: 0 <= j < |s.procs| && Enabled(s, Step(j))
  }

  /** Inside a routine and not waiting for data. */
  predicate Busy(p: Proc) {
    !p.loc.Idle? && !p.loc.Thrown? && !p.mode.DataWait?
  }

  ghost predicate SomeBusy(s: State) {
    exists i :: 0 <= i < |s.procs| && Busy(s.procs[i])
  }

  /** The holder of the global mutex never waits for another mutex. */
  lemma GlobalHolderProceeds(s: State)
    requires Control(s) && s.gowner.Some?
    ensures CanProceed(s)
  {
    var j := s.gowner.value;
    RoutinesAreDisciplined(s.procs[j].loc);
    assert Enabled(s, Step(j));
  }

  lemma RegisteredCanStep(v: View, n: nat)
    requires ShapeIn(n, v.p) && At(v.p.loc).globalClient && !v.p.loc.Thrown? && v.gowner.None?
    ensures CanStep(v)
  {
    RoutinesAreDisciplined(v.p.loc);
  }

  /** A globally registered client needs no slot mutex before it unregisters. */
  lemma GlobalClientProceeds(s: State)
    requires Control(s) && s.gowner.None? && s.gclients > 0
    requires forall i | 0 <= i < |s.procs| :: !s.procs[i].loc.Thrown?
    ensures CanProceed(s)
  {
    CountPositive(s.procs, GlobalClients);
    var j :| 0 <= j < |s.procs| && Registered(s.procs[j], GlobalClients);
    assert ShapeIn(|s.slots|, s.procs[j]);
    hide CanStep, At, Control;
    RegisteredCanStep(ViewOf(s, j), |s.slots|);
    assert Enabled(s, Step(j));
  }

  /** Nobody has left `serialize` by an overrun, or nobody waits for who has. */
  ghost predicate Unwedged(s: State) {
    || (forall i | 0 <= i < |s.procs| :: !s.procs[i].loc.Thrown?)
    || (forall i | 0 <= i < |s.procs| :: !s.procs[i].mode.GlobalWait?)
  }

  /** A process whose slot mutex is what it lacks: the owner of that mutex can
      proceed, or waits for globally registered clients, one of which can. */
  lemma SlotMutexProceeds(s: State, k: nat)
    requires Control(s) && s.gowner.None? && k < |s.slots| && s.slots[k].owner.Some?
    requires Unwedged(s)
    ensures CanProceed(s)
  {
    var j := s.slots[k].owner.value;
    RoutinesAreDisciplined(s.procs[j].loc);
    if s.procs[j].mode.GlobalWait? {
      GlobalClientProceeds(s);
    } else {
      assert Enabled(s, Step(j));
    }
  }

  lemma WantsSlotProceeds(s: State, j: nat)
    requires Control(s) && s.gowner.None? && j < |s.procs|
    requires Unwedged(s)
    requires Busy(s.procs[j]) && s.procs[j].mode !in {LockWait, GlobalWait}
    ensures CanProceed(s)
  {
    if s.slots[s.procs[j].slot].owner.Some? {
      SlotMutexProceeds(s, s.procs[j].slot);
    } else {
      assert Enabled(s, Step(j));
    }
  }

  lemma ReaderDoesNotWait(p: Proc, n: nat)
    requires ShapeIn(n, p) && At(p.loc).slotClient
    ensures Busy(p) && p.mode !in {LockWait, GlobalWait}
  {
    RoutinesAreDisciplined(p.loc);
  }

  lemma BusyProceeds(s: State, i: nat)
    requires Control(s) && i < |s.procs| && Busy(s.procs[i])
    requires Unwedged(s)
    ensures CanProceed(s)
  {
    hide CanProceed, At;
    if s.gowner.Some? {
      GlobalHolderProceeds(s);
    } else if s.procs[i].mode.GlobalWait? {
      GlobalClientProceeds(s);
    } else if s.procs[i].mode.LockWait? {
      // a registered reader of the slot: it runs, or it wants the slot mutex back
      var k := s.procs[i].slot;
      CountPositive(s.procs, SlotClients(k));
      var j :| 0 <= j < |s.procs| && Registered(s.procs[j], SlotClients(k));
      ReaderDoesNotWait(s.procs[j], |s.slots|);
      WantsSlotProceeds(s, j);
    } else {
      WantsSlotProceeds(s, i);
    }
  }

  /** In every run of any number of processes on any number of topics: when processes are
      inside their routines and none of them can go on, a publisher has left `serialize`
      by a stream overrun, and a process waits for the global clients. */
  lemma StuckOnlyByOverrun(init: State, actions: seq<Action>, s: State)
    requires Init(init) && Run(init, actions) == Some(s)
    requires SomeBusy(s) && !CanProceed(s)
    ensures exists j :: 0 <= j < |s.procs| && s.procs[j].loc.Thrown?
    ensures exists j :: 0 <= j < |s.procs| && s.procs[j].mode.GlobalWait?
  {
    ControlAlways(init, actions);
    var i :| 0 <= i < |s.procs| && Busy(s.procs[i]);
    if Unwedged(s) {
      BusyProceeds(s, i);
    }
  }

  // ---------------------------------------------------------------- what an overrun does

  lemma NeitherActs(s: State, a: Action)
    requires Control(s) && Enabled(s, a)
    ensures !s.procs[a.i].loc.Thrown? && !s.procs[a.i].mode.GlobalWait?
  {
    assert ShapeIn(|s.slots|, s.procs[a.i]);
  }

  lemma ThrownCounts(ps: seq<Proc>, i: nat)
    requires i < |ps| && ps[i].loc.Thrown?
    ensures Count(ps, GlobalClients) > 0
  {
    hide Count;
    CountPositive(ps, GlobalClients);
    assert Registered(ps[i], GlobalClients);
  }

  lemma ThrownStaysRegistered(s: State, i: nat)
    requires Control(s) && i < |s.procs| && s.procs[i].loc.Thrown?
    ensures s.gclients > 0
  {
    hide Count, Shapes, Owners, Wakeups;
    ThrownCounts(s.procs, i);
  }

  lemma WedgedStep(s: State, a: Action, i: nat, j: nat)
    requires Control(s) && Enabled(s, a) && i < |s.procs| && j < |s.procs|
    requires s.procs[i].loc.Thrown? && s.procs[j].mode.GlobalWait?
    ensures var t := Apply(s, a);
      Control(t) && |t.procs| == |s.procs| && t.procs[i].loc.Thrown? && t.procs[j] == s.procs[j]
  {
    hide Act, CanAct, Control, Apply;
    NeitherActs(s, a);
    ControlStep(s, a);
    var v := ViewOf(s, a.i);
    OthersAreWoken(s, a, i);
    OthersAreWoken(s, a, j);
    ThrownStaysRegistered(Apply(s, a), i);
    if Act(v, a).signal == Some(GlobalCond) {
      NotifiesAtZero(v, a);
    }
  }

  /** A publisher that left `serialize` by an overrun stays registered: whoever waits for
      the global clients then waits forever, whatever the others do. */
  lemma {:induction false} OverrunWedges(init: State, before: seq<Action>, s: State, i: nat, j: nat,
                                         after: seq<Action>, t: State)
    requires Init(init) && Run(init, before) == Some(s) && Run(s, after) == Some(t)
    requires i < |s.procs| && j < |s.procs| && s.procs[i].loc.Thrown? && s.procs[j].mode.GlobalWait?
    ensures Control(t) && |t.procs| == |s.procs|
    ensures t.procs[i].loc.Thrown? && t.procs[j] == s.procs[j] && t.gclients > 0
    decreases |after|
  {
    hide Init, Control, Apply, Enabled;
    if after == [] {
      ControlAlways(init, before);
    } else {
      var front, a := after[..|after| - 1], after[|after| - 1];
      var u := Run(s, front).value;
      OverrunWedges(init, before, s, i, j, front, u);
      WedgedStep(u, a, i, j);
    }
    ThrownStaysRegistered(t, i);
  }
}
