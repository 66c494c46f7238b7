/** When a publisher's stream is as long as its message: on a topic with one publisher,
    or with messages of one length, no stream ever overruns, and the protocol is then
    free of deadlock and every routine comes to its end. */
module ProtocolStreams {
  import opened Options
  import opened ProtocolModel
  import opened ProtocolControl
  import opened ProtocolLiveness
  import opened ProtocolData
  import opened ProtocolExclusion
  import opened ProtocolDelivery
  import opened ProtocolProgress

  ghost predicate OnePublisher(s: State, k: nat) {
    forall i: nat, j: nat | IsPub(s, i, k) && IsPub(s, j, k) :: i == j
  }

  /** Every publish on slot k in the list of actions is of a message of length n. */
  ghost predicate AllOfLength(init: State, actions: seq<Action>, k: nat, n: nat) {
    forall c | 0 <= c < |actions| && actions[c].BeginPublish? && OnSlot(init, actions[c].i, k) ::
      |actions[c].m| == n
  }

  /** What the users of a topic can see to beforehand: it has one publisher, or its
      messages have one length. */
  ghost predicate SafeTopic(init: State, actions: seq<Action>, k: nat) {
    OnePublisher(init, k) || exists n :: AllOfLength(init, actions, k, n)
  }

  // ---------------------------------------------------------------- sizes hold

  predicate Publishes(p: Proc) {
    RoleOf(p.loc) == Some(Publisher)
  }

  predicate PubLength(p: Proc, n: nat) {
    Publishes(p) ==> |p.msg| == n
  }

  /** From recording the size to the end of the publish, the slot's size is the
      length of the message. */
  predicate SizeHeld(p: Proc, x: Slot) {
    && !p.loc.SUnwind? && !p.loc.Thrown?
    && (!PhaseOf(p.loc).Before? ==> x.desc.size == |p.msg|)
  }

  ghost predicate SizesHeld(s: State, k: nat)
    requires k < |s.slots|
  {
    forall i: nat | IsPub(s, i, k) :: SizeHeld(s.procs[i], s.slots[k])
  }

  /** Publishers at work on the topic have messages of one length. */
  ghost predicate Agree(s: State, k: nat) {
    forall i: nat, j: nat | IsPub(s, i, k) && IsPub(s, j, k) && Publishes(s.procs[i]) && Publishes(s.procs[j]) ::
      |s.procs[i].msg| == |s.procs[j].msg|
  }

  lemma LocalHoldsSize(x: Slot, p: Proc)
    requires InstrAt(p.loc).Local? && Publishes(p) && StoreOk(x) && ProcData(p, x) && SizeHeld(p, x)
    ensures var (y, q) := LocalStep(x, p); SizeHeld(q, y)
  {
    match p.loc
    case SWrite =>
    case RRecreate | RRecord =>
    case _ =>
  }

  lemma ActHoldsSize(v: View, a: Action, n: nat)
    requires CanAct(v, a) && ShapeIn(n, v.p) && v.p.role.Publisher?
    requires StoreOk(v.x) && ProcData(v.p, v.x) && SizeHeld(v.p, v.x)
    ensures SizeHeld(Act(v, a).v.p, Act(v, a).v.x)
  {
    if IsDataStep(v, a) {
      LocalHoldsSize(v.x, v.p);
    } else {
      OtherSteps(v, a, n);
      PhasesFollow(v.p.loc);
      hide Act, CanAct, Succ, InstrAt, StoreOk, ProcData;
    }
  }

  /** A step leaves the size or makes it the length of the message being published. */
  lemma ActSetsSize(v: View, a: Action, n: nat)
    requires CanAct(v, a) && ShapeIn(n, v.p)
    ensures Act(v, a).v.x.desc.size == v.x.desc.size
         || (v.p.role.Publisher? && Publishes(v.p) && Act(v, a).v.x.desc.size == |v.p.msg|)
  {
    if IsDataStep(v, a) {
      match v.p.loc
      case RRecreate | RRecord =>
      case SWrite =>
      case _ =>
    }
  }

  lemma SizeHeldForOther(s: State, a: Action, k: nat, j: nat)
    requires Control(s) && k < |s.slots| && Agree(s, k) && SizesHeld(s, k) && Enabled(s, a)
    requires IsPub(s, a.i, k) || IsSub(s, a.i, k)
    requires IsPub(s, j, k)
    ensures SizeHeld(s.procs[j], Act(ViewOf(s, a.i), a).v.x)
  {
    var v, p := ViewOf(s, a.i), s.procs[j];
    assert ShapeIn(|s.slots|, v.p);
    ActSetsSize(v, a, |s.slots|);
    assert SizeHeld(p, s.slots[k]);
    if !PhaseOf(p.loc).Before? {
      assert Publishes(p);
    }
  }

  lemma WakeSize(p: Proc, k: nat, c: Option<Cond>, x: Slot)
    ensures SizeHeld(Wake(p, k, c), x) == SizeHeld(p, x)
  {
  }

  lemma SizesHeldStep(s: State, a: Action, k: nat)
    requires Control(s) && Data(s) && k < |s.slots| && Agree(s, k) && SizesHeld(s, k) && Enabled(s, a)
    ensures k < |Apply(s, a).slots| && SizesHeld(Apply(s, a), k)
  {
    var t, v := Apply(s, a), ViewOf(s, a.i);
    var e := Act(v, a);
    PlacesKept(s, a);
    OthersAreWoken(s, a, a.i);
    forall j: nat | IsPub(t, j, k)
      ensures SizeHeld(t.procs[j], t.slots[k])
    {
      SizeHeldFor(s, a, k, j);
    }
  }

  lemma SizeHeldFor(s: State, a: Action, k: nat, j: nat)
    requires Control(s) && Data(s) && k < |s.slots| && Agree(s, k) && SizesHeld(s, k) && Enabled(s, a)
    requires IsPub(Apply(s, a), j, k)
    ensures k < |Apply(s, a).slots| && SizeHeld(Apply(s, a).procs[j], Apply(s, a).slots[k])
  {
    var v := ViewOf(s, a.i);
    var e := Act(v, a);
    assert ShapeIn(|s.slots|, v.p) && StoreOk(v.x) && ProcData(v.p, v.x);
    PlacesKept(s, a);
    StepKeepsPlace(s, a, j);
    OthersAreWoken(s, a, j);
    assert IsPub(s, j, k);
    assert SizeHeld(s.procs[j], s.slots[k]);
    if j == a.i {
      ActHoldsSize(v, a, |s.slots|);
    } else if OnSlot(s, a.i, k) {
      SizeHeldForOther(s, a, k, j);
    }
    hide Act, CanAct, Apply, Control, Data, SizeHeld;
    WakeSize(if j == a.i then e.v.p else s.procs[j], v.p.slot, e.signal, Apply(s, a).slots[k]);
  }

  // ---------------------------------------------------------------- publishers agree

  ghost predicate PubLengths(s: State, k: nat, n: nat) {
    forall i: nat | OnSlot(s, i, k) :: PubLength(s.procs[i], n)
  }

  lemma ActKeepsMessage(v: View, a: Action, n: nat)
    requires CanAct(v, a) && ShapeIn(n, v.p)
    ensures var q := Act(v, a).v.p; Publishes(q) ==>
      if a.BeginPublish? then q.msg == a.m else Publishes(v.p) && q.msg == v.p.msg
  {
    if IsDataStep(v, a) {
      LocalKeepsContext(v.x, v.p);
      LocalKeepsMessage(v.x, v.p);
      hide LocalStep, RoleOf, At;
    } else {
      OtherSteps(v, a, n);
      hide Act, CanAct, Moves, RoleOf, InstrAt;
      if Publishes(Act(v, a).v.p) {
        MoveKeepsMessage(v.p, a, Act(v, a).v.p);
      }
    }
  }

  lemma MoveKeepsMessage(p: Proc, a: Action, q: Proc)
    requires Moves(p, a, q) && Publishes(q)
    ensures if a.BeginPublish? then q.msg == a.m else Publishes(p) && q.msg == p.msg
  {
    RoutinesStayApart(p.loc);
    hide Succ, InstrAt;
  }

  lemma LocalKeepsMessage(x: Slot, p: Proc)
    ensures LocalStep(x, p).1.msg == p.msg
  {
  }

  lemma PubLengthsStep(s: State, a: Action, k: nat, n: nat)
    requires Control(s) && Enabled(s, a) && PubLengths(s, k, n)
    requires a.BeginPublish? && OnSlot(s, a.i, k) ==> |a.m| == n
    ensures PubLengths(Apply(s, a), k, n)
  {
    var t, v := Apply(s, a), ViewOf(s, a.i);
    assert ShapeIn(|s.slots|, v.p);
    ActKeepsMessage(v, a, |s.slots|);
    PlacesKept(s, a);
    hide Act, CanAct, Apply, Control, Publishes;
    forall i: nat | OnSlot(t, i, k)
      ensures PubLength(t.procs[i], n)
    {
      OthersAreWoken(s, a, i);
      assert OnSlot(s, i, k) && PubLength(s.procs[i], n);
      WakeLength(if i == a.i then Act(v, a).v.p else s.procs[i], v.p.slot, Act(v, a).signal, n);
    }
  }

  lemma WakeLength(p: Proc, k: nat, c: Option<Cond>, n: nat)
    ensures PubLength(Wake(p, k, c), n) == PubLength(p, n)
  {
  }

  lemma {:induction false} PlacesStay(s: State, actions: seq<Action>, i: nat, k: nat)
    requires Init(s) && Run(s, actions).Some?
    ensures OnSlot(Run(s, actions).value, i, k) == OnSlot(s, i, k)
    ensures IsPub(Run(s, actions).value, i, k) == IsPub(s, i, k)
  {
    hide Init, Control, Enabled, Apply;
    if actions != [] {
      var t, a := Run(s, actions[..|actions| - 1]).value, actions[|actions| - 1];
      PlacesStay(s, actions[..|actions| - 1], i, k);
      ControlAlways(s, actions[..|actions| - 1]);
      PlacesKept(t, a);
      if i < |t.procs| {
        StepKeepsPlace(t, a, i);
      }
    }
  }

  lemma {:induction false} PubLengthsAlways(s: State, actions: seq<Action>, k: nat, n: nat)
    requires Init(s) && Run(s, actions).Some? && AllOfLength(s, actions, k, n)
    ensures PubLengths(Run(s, actions).value, k, n)
  {
    if actions != [] {
      hide Init, Control, Enabled, Apply;
      var front, a := actions[..|actions| - 1], actions[|actions| - 1];
      PubLengthsAlways(s, front, k, n);
      ControlAlways(s, front);
      PlacesStay(s, front, a.i, k);
      PubLengthsStep(Run(s, front).value, a, k, n);
    }
  }

  lemma AgreeAlways(s: State, actions: seq<Action>, k: nat)
    requires Init(s) && Run(s, actions).Some? && SafeTopic(s, actions, k)
    ensures Agree(Run(s, actions).value, k)
  {
    var t := Run(s, actions).value;
    if OnePublisher(s, k) {
      forall i: nat, j: nat | IsPub(t, i, k) && IsPub(t, j, k)
        ensures i == j
      {
        PlacesStay(s, actions, i, k);
        PlacesStay(s, actions, j, k);
      }
    } else {
      var n :| AllOfLength(s, actions, k, n);
      PubLengthsAlways(s, actions, k, n);
    }
  }

  lemma SafeBefore(init: State, actions: seq<Action>, k: nat)
    requires actions != [] && SafeTopic(init, actions, k)
    ensures SafeTopic(init, actions[..|actions| - 1], k)
  {
    if !OnePublisher(init, k) {
      var n :| AllOfLength(init, actions, k, n);
      assert AllOfLength(init, actions[..|actions| - 1], k, n);
    }
  }

  lemma {:induction false} SizesHeldAlways(s: State, actions: seq<Action>, k: nat)
    requires Init(s) && Run(s, actions).Some? && k < |s.slots| && SafeTopic(s, actions, k)
    ensures var t := Run(s, actions).value;
      Control(t) && Data(t) && k < |t.slots| && SizesHeld(t, k)
  {
    DataAlways(s, actions);
    if actions != [] {
      hide Init, Control, Data, Enabled, Apply, SizesHeld, Agree, SafeTopic;
      var front := actions[..|actions| - 1];
      SafeBefore(s, actions, k);
      SizesHeldAlways(s, front, k);
      AgreeAlways(s, front, k);
      SizesHeldStep(Run(s, front).value, actions[|actions| - 1], k);
    }
  }

  // ---------------------------------------------------------------- results

  /** With one publisher, or one length, a publisher of the topic never runs out of its
      stream, in any run with any number of subscribers. */
  lemma NoStreamOverrun(init: State, actions: seq<Action>, s: State, i: nat, k: nat)
    requires Init(init) && k < |init.slots| && SafeTopic(init, actions, k)
    requires Run(init, actions) == Some(s) && IsPub(s, i, k)
    ensures !s.procs[i].loc.SUnwind? && !s.procs[i].loc.Thrown?
  {
    SizesHeldAlways(init, actions, k);
    assert SizeHeld(s.procs[i], s.slots[k]);
  }

  lemma {:induction false} SlotsStay(s: State, actions: seq<Action>)
    requires Run(s, actions).Some?
    ensures |Run(s, actions).value.slots| == |s.slots|
  {
    if actions != [] {
      SlotsStay(s, actions[..|actions| - 1]);
    }
  }

  ghost predicate AllSafe(init: State, actions: seq<Action>) {
    forall k: nat | k < |init.slots| :: SafeTopic(init, actions, k)
  }

  /** When every topic has one publisher or one length of messages: in every run, while
      some process is neither idle nor waiting for data, some process can step. */
  lemma DeadlockFreedom(init: State, actions: seq<Action>, s: State)
    requires Init(init) && Run(init, actions) == Some(s) && AllSafe(init, actions)
    ensures SomeBusy(s) ==> CanProceed(s)
  {
    ControlAlways(init, actions);
    SlotsStay(init, actions);
    hide CanProceed, SomeBusy, Owners, Counts, Wakeups, OnePublisher, Init;
    if SomeBusy(s) && !CanProceed(s) {
      StuckOnlyByOverrun(init, actions, s);
      var j :| 0 <= j < |s.procs| && s.procs[j].loc.Thrown?;
      assert ShapeIn(|s.slots|, s.procs[j]);
      assert IsPub(s, j, s.procs[j].slot);
      NoStreamOverrun(init, actions, s, j, s.procs[j].slot);
    }
  }

  lemma StepsKeepLength(init: State, actions: seq<Action>, steps: seq<Action>, k: nat, n: nat)
    requires AllOfLength(init, actions, k, n) && OnlySteps(steps)
    ensures AllOfLength(init, actions + steps, k, n)
  {
    var all := actions + steps;
    assert forall c | |actions| <= c < |all| :: all[c].Step?;
  }

  lemma StepsStaySafe(init: State, actions: seq<Action>, steps: seq<Action>)
    requires AllSafe(init, actions) && OnlySteps(steps)
    ensures AllSafe(init, actions + steps)
  {
    forall k: nat | k < |init.slots|
      ensures SafeTopic(init, actions + steps, k)
    {
      assert SafeTopic(init, actions, k);
      if !OnePublisher(init, k) {
        var n :| AllOfLength(init, actions, k, n);
        StepsKeepLength(init, actions, steps, k, n);
      }
    }
  }

  /** Then every routine comes to its end too: from every state of every run, without a
      routine starting or a timed wait expiring, there are steps after which every process
      is idle or waiting for data; and no schedule of steps is longer than the work left. */
  lemma EverybodyFinishes(init: State, actions: seq<Action>, s: State) returns (steps: seq<Action>, t: State)
    requires Init(init) && Run(init, actions) == Some(s) && AllSafe(init, actions)
    ensures OnlySteps(steps) && Run(s, steps) == Some(t) && |steps| <= TotalWork(s.procs)
    ensures !SomeBusy(t)
  {
    hide Init, SomeBusy, CanProceed, AllSafe;
    steps, t := StepsRunOut(init, actions, s, [], s);
    SchedulesAreBounded(init, actions, s, steps, t);
    RunTwice(init, actions, s, steps);
    StepsStaySafe(init, actions, steps);
    DeadlockFreedom(init, actions + steps, t);
  }
}
