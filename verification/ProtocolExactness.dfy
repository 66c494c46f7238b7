/** When exclusion, untorn delivery, streams without overrun and progress hold of every
    run from a given initial state: for each the condition on the topics, their users and
    their messages is not only enough but necessary. */
module ProtocolExactness {
  import opened Options
  import opened Bytes
  import opened ProtocolModel
  import opened ProtocolControl
  import opened ProtocolLiveness
  import opened ProtocolData
  import opened ProtocolExclusion
  import opened ProtocolDelivery
  import opened ProtocolStreams
  import opened ProtocolLengths
  import opened ProtocolSent
  import opened ProtocolWaits
  import Solo = ProtocolSolo
  import Scenarios = ProtocolScenarios
  import Breaks = ProtocolBreaks
  import Crowds = ProtocolCrowds

  // ---------------------------------------------------------------- exclusion

  /** Some step of some run changes slot k under a registered reader. */
  ghost predicate ExclusionFails(init: State, k: nat) {
    exists actions: seq<Action>, s: State, a: Action, j: nat :: ExclusionFailsAt(init, k, actions, s, a, j)
  }

  ghost predicate ExclusionFailsAt(init: State, k: nat, actions: seq<Action>, s: State, a: Action, j: nat) {
    && Run(init, actions) == Some(s) && Enabled(s, a) && k < |s.slots| && k < |Apply(s, a).slots|
    && !SameStore(s.slots[k], Apply(s, a).slots[k])
    && j < |s.procs| && Registered(s.procs[j], SlotClients(k))
  }

  ghost predicate HasPublisher(s: State, k: nat) {
    exists i: nat :: IsPub(s, i, k)
  }

  ghost predicate HasSubscriber(s: State, k: nat) {
    exists j: nat :: IsSub(s, j, k)
  }

  /** Exclusion needs its hypothesis: of a topic with users of both kinds, it holds in every
      run exactly if the topic has one publisher and one subscriber. */
  lemma ExclusionExactly(init: State, k: nat)
    requires Init(init) && k < |init.slots|
    ensures ExclusionFails(init, k) <==> HasPublisher(init, k) && HasSubscriber(init, k) && !OneToOne(init, k)
  {
    if HasPublisher(init, k) && HasSubscriber(init, k) && !OneToOne(init, k) {
      CrowdBreaks(init, k);
    }
    if ExclusionFails(init, k) {
      var actions: seq<Action>, s: State, a: Action, j: nat :| ExclusionFailsAt(init, k, actions, s, a, j);
      BreakersArePresent(init, k, actions, s, a, j);
      if OneToOne(init, k) {
        ReaderWriterExclusion(init, actions, s, a, k);
      }
    }
  }

  lemma CrowdBreaks(init: State, k: nat)
    requires Init(init) && k < |init.slots|
    requires HasPublisher(init, k) && HasSubscriber(init, k) && !OneToOne(init, k)
    ensures ExclusionFails(init, k)
  {
    var a: nat :| IsPub(init, a, k);
    var b: nat :| IsSub(init, b, k);
    var i, j :| 0 <= i < j < |init.procs| && init.procs[i].slot == init.procs[j].slot == k
             && init.procs[i].role == init.procs[j].role;
    hide Init;
    if init.procs[i].role.Publisher? {
      var u := Crowds.TwoPublishersBreak(init, k, i, b, j);
      BrokenFails(init, k, u, Step(i), b);
    } else {
      var u := Crowds.TwoReadersBreak(init, k, a, i, j);
      BrokenFails(init, k, u, Step(a), j);
    }
  }

  lemma BrokenFails(init: State, k: nat, u: State, a: Action, j: nat)
    requires Crowds.Broken(init, k, u, a, j)
    ensures ExclusionFails(init, k)
  {
    hide Enabled, Apply;
    var begun :| Scenarios.Leads(init, u, begun);
    var actions :| Run(init, actions) == Some(u) && Scenarios.Begun(actions) == begun;
    assert ExclusionFailsAt(init, k, actions, u, a, j);
  }

  /** The step is a publisher's, and who is registered is a subscriber. */
  lemma BreakersArePresent(init: State, k: nat, actions: seq<Action>, s: State, a: Action, j: nat)
    requires Init(init) && ExclusionFailsAt(init, k, actions, s, a, j)
    ensures HasPublisher(init, k) && HasSubscriber(init, k)
  {
    ControlAlways(init, actions);
    var v := ViewOf(s, a.i);
    assert ShapeIn(|s.slots|, v.p) && ShapeIn(|s.slots|, s.procs[j]);
    StoreChangesPastCheck(v, a, |s.slots|);
    OnlySubscribersRegister(s.procs[j], k, |s.slots|);
    OthersAreWoken(s, a, j);
    hide Act, CanAct, Init;
    assert IsPub(s, a.i, k);
    PlacesStay(init, actions, a.i, k);
    assert IsPub(init, a.i, k);
    PlacesStay(init, actions, j, k);
    assert IsSub(init, j, k);
  }

  // ---------------------------------------------------------------- torn deliveries

  lemma {:induction false} TopicLengths(init: State, actions: seq<Action>, k: nat, n: nat)
    requires forall d | 0 <= d < |TopicMessages(init, actions, k)| :: |TopicMessages(init, actions, k)[d]| == n
    ensures AllOfLength(init, actions, k, n)
  {
    if actions != [] {
      var front, a, all := actions[..|actions| - 1], actions[|actions| - 1], TopicMessages(init, actions, k);
      var some := TopicMessages(init, front, k);
      assert forall d | 0 <= d < |some| :: some[d] == all[d];
      TopicLengths(init, front, k, n);
      if a.BeginPublish? && OnSlot(init, a.i, k) {
        assert a.m == all[|all| - 1];
      }
    }
  }

  lemma {:induction false} TopicOfBegun(init: State, actions: seq<Action>, k: nat, i: nat, ms: seq<Bytes>)
    requires OnSlot(init, i, k) && Scenarios.Begun(actions) == Breaks.ByOne(i, ms)
    ensures TopicMessages(init, actions, k) == ms
  {
    if actions == [] {
      assert |Scenarios.Begun(actions)| == 0;
    } else {
      var front, a := actions[..|actions| - 1], actions[|actions| - 1];
      var begun := Scenarios.Begun(front);
      if a.BeginPublish? {
        var n := |ms| - 1;
        assert Scenarios.Begun(actions) == begun + [(a.i, a.m)];
        assert |begun| == n && Scenarios.Begun(actions)[n] == (a.i, a.m) == (i, ms[n]);
        assert begun == Scenarios.Begun(actions)[..n] == Breaks.ByOne(i, ms[..n]);
        TopicOfBegun(init, front, k, i, ms[..n]);
        assert ms == ms[..n] + [ms[n]];
      } else {
        assert Scenarios.Begun(actions) == begun;
        TopicOfBegun(init, front, k, i, ms);
      }
    }
  }

  /** Subscriber j has been delivered something other than the message it was woken for. */
  ghost predicate Torn(s: State, j: nat, k: nat) {
    && j < |s.procs| && k < |s.slots| && |s.procs[j].got| == |s.procs[j].seen|
    && exists d | 0 <= d < |s.procs[j].seen| ::
         var m, published := s.procs[j].seen[d], s.slots[k].published;
         0 <= m < |published| && s.procs[j].got[d] != published[m]
  }

  /** In some run whose publishes on the topic are the first ones of ms, a delivery is torn. */
  ghost predicate CanTear(init: State, k: nat, j: nat, ms: seq<Bytes>) {
    exists actions, s :: Run(init, actions) == Some(s) && TopicMessages(init, actions, k) <= ms && Torn(s, j, k)
  }

  lemma {:induction false} OneLength(ms: seq<Bytes>, d: nat)
    requires forall c | 0 <= c < |ms| - 1 :: |ms[c]| == |ms[c + 1]|
    requires d < |ms|
    ensures |ms[d]| == |ms[0]|
  {
    if d > 0 {
      OneLength(ms, d - 1);
    }
  }

  /** Delivery needs messages of one length: whatever list of messages the publisher of a
      one-to-one topic has, they can be torn exactly if two that follow each other differ
      in length. */
  lemma TearsExactly(init: State, k: nat, a: nat, b: nat, ms: seq<Bytes>)
    requires Init(init) && k < |init.slots| && OneToOne(init, k) && IsPub(init, a, k) && IsSub(init, b, k)
    requires forall d | 0 <= d < |ms| :: IsMessage(ms[d])
    ensures CanTear(init, k, b, ms) <==> exists c :: 0 <= c < |ms| - 1 && |ms[c]| != |ms[c + 1]|
  {
    if c :| 0 <= c < |ms| - 1 && |ms[c]| != |ms[c + 1]| {
      UnequalTears(init, k, a, b, ms, c);
    } else if CanTear(init, k, b, ms) {
      var actions, s :| Run(init, actions) == Some(s) && TopicMessages(init, actions, k) <= ms && Torn(s, b, k);
      EqualDoesNotTear(init, actions, s, k, b, ms);
    }
  }

  lemma UnequalTears(init: State, k: nat, a: nat, b: nat, ms: seq<Bytes>, c: nat)
    requires Init(init) && k < |init.slots| && IsPub(init, a, k) && IsSub(init, b, k)
    requires forall d | 0 <= d < |ms| :: IsMessage(ms[d])
    requires c + 1 < |ms| && |ms[c]| != |ms[c + 1]|
    ensures CanTear(init, k, b, ms)
  {
    hide Init, IsMessage;
    var u, g := Breaks.TearRun(init, k, a, b, ms, c);
    var actions :| Run(init, actions) == Some(u) && Scenarios.Begun(actions) == Breaks.ByOne(a, ms[..c + 2]);
    TopicOfBegun(init, actions, k, a, ms[..c + 2]);
    assert u.procs[b].seen[0] == c && u.slots[k].published[c] == ms[c];
    assert Torn(u, b, k);
  }

  lemma EqualDoesNotTear(init: State, actions: seq<Action>, s: State, k: nat, b: nat, ms: seq<Bytes>)
    requires Init(init) && k < |init.slots| && OneToOne(init, k) && IsSub(init, b, k)
    requires Run(init, actions) == Some(s) && TopicMessages(init, actions, k) <= ms
    requires forall c | 0 <= c < |ms| - 1 :: |ms[c]| == |ms[c + 1]|
    ensures !Torn(s, b, k)
  {
    hide Init, OneToOne;
    var n := if ms == [] then 8 else |ms[0]|;
    forall d | 0 <= d < |TopicMessages(init, actions, k)|
      ensures |TopicMessages(init, actions, k)[d]| == n
    {
      OneLength(ms, d);
    }
    TopicLengths(init, actions, k, n);
    PlacesStay(init, actions, b, k);
    EqualLengthDelivery(init, actions, s, k, b, n);
  }

  // ---------------------------------------------------------------- overruns

  /** The publishes on the topic are of messages of the given lengths. */
  ghost predicate WithLengths(init: State, actions: seq<Action>, k: nat, lens: set<nat>) {
    forall c | 0 <= c < |actions| && actions[c].BeginPublish? && OnSlot(init, actions[c].i, k) ::
      |actions[c].m| in lens
  }

  ghost predicate CanOverrun(init: State, k: nat, lens: set<nat>) {
    exists actions, s, i: nat ::
      Run(init, actions) == Some(s) && WithLengths(init, actions, k, lens) && IsPub(s, i, k) && s.procs[i].loc.Thrown?
  }

  lemma {:induction false} BegunWithin(init: State, actions: seq<Action>, k: nat, lens: set<nat>)
    requires forall d | 0 <= d < |Scenarios.Begun(actions)| :: |Scenarios.Begun(actions)[d].1| in lens
    ensures WithLengths(init, actions, k, lens)
  {
    if actions != [] {
      var front, a, all := actions[..|actions| - 1], actions[|actions| - 1], Scenarios.Begun(actions);
      assert forall d | 0 <= d < |Scenarios.Begun(front)| :: Scenarios.Begun(front)[d] == all[d];
      BegunWithin(init, front, k, lens);
      if a.BeginPublish? {
        assert all[|all| - 1] == (a.i, a.m);
      }
    }
  }

  /** A stream can overrun exactly on a topic with two publishers and two lengths. */
  lemma OverrunsExactly(init: State, k: nat, lens: set<nat>)
    requires Init(init) && k < |init.slots| && forall n | n in lens :: 8 <= n < UINT32
    ensures CanOverrun(init, k, lens) <==> !OnePublisher(init, k) && exists m, n :: m in lens && n in lens && m != n
  {
    if !OnePublisher(init, k) && exists m, n :: m in lens && n in lens && m != n {
      var m, n :| m in lens && n in lens && m > n;
      TwoLengthsOverrun(init, k, lens, m, n);
    } else if CanOverrun(init, k, lens) {
      hide Init, OnePublisher;
      var actions, s, i: nat :|
        && Run(init, actions) == Some(s) && WithLengths(init, actions, k, lens)
        && IsPub(s, i, k) && s.procs[i].loc.Thrown?;
      if !OnePublisher(init, k) {
        var n := if n :| n in lens then n else 8;
        assert AllOfLength(init, actions, k, n);
      }
      NoStreamOverrun(init, actions, s, i, k);
    }
  }

  lemma TwoLengthsOverrun(init: State, k: nat, lens: set<nat>, m: nat, n: nat)
    requires Init(init) && k < |init.slots| && !OnePublisher(init, k)
    requires m in lens && n in lens && 8 <= n < m < UINT32
    ensures CanOverrun(init, k, lens)
  {
    var i: nat, j: nat :| IsPub(init, i, k) && IsPub(init, j, k) && i != j;
    hide Init, OnePublisher, CanOverrun;
    var c, u, p, q, y := Breaks.OverrunRun(init, k, i, j, Zeros(m), Zeros(n));
    OverrunWithin(init, u, k, i, [(i, Zeros(m))] + [(j, Zeros(n))], lens);
  }

  lemma OverrunWithin(init: State, u: State, k: nat, i: nat, begun: seq<(nat, Bytes)>, lens: set<nat>)
    requires Init(init) && Scenarios.Leads(init, u, begun)
    requires IsPub(init, i, k) && i < |u.procs| && u.procs[i].loc.Thrown?
    requires forall d | 0 <= d < |begun| :: |begun[d].1| in lens
    ensures CanOverrun(init, k, lens)
  {
    hide Init;
    var actions :| Run(init, actions) == Some(u) && Scenarios.Begun(actions) == begun;
    BegunWithin(init, actions, k, lens);
    PlacesStay(init, actions, i, k);
  }

  // ---------------------------------------------------------------- deadlock

  /** Some run ends with processes inside their routines of which none can go on. */
  ghost predicate CanDeadlock(init: State) {
    exists actions, s :: Run(init, actions) == Some(s) && SomeBusy(s) && !CanProceed(s)
  }

  /** With messages of any length the protocol can deadlock exactly if some topic has two
      publishers and somebody can come to wait for the global clients: a publisher on a
      block that can still grow, or a subscriber that has no handle yet. */
  lemma DeadlocksExactly(init: State)
    requires Init(init)
    ensures CanDeadlock(init) <==>
              && (exists k: nat :: k < |init.slots| && !OnePublisher(init, k))
              && (exists z: nat :: ValidProc(init, z) && CanEverWait(init, z))
  {
    hide OnePublisher, SomeBusy, CanProceed;
    if k: nat, z: nat :| k < |init.slots| && !OnePublisher(init, k) && ValidProc(init, z) && CanEverWait(init, z) {
      TwoPublishersDeadlock(init, k, z);
    }
    if CanDeadlock(init) {
      var actions, s :| Run(init, actions) == Some(s) && SomeBusy(s) && !CanProceed(s);
      DeadlockNeeds(init, actions, s);
    }
  }

  lemma DeadlockNeeds(init: State, actions: seq<Action>, s: State)
    requires Init(init) && Run(init, actions) == Some(s) && SomeBusy(s) && !CanProceed(s)
    ensures exists k: nat :: k < |init.slots| && !OnePublisher(init, k)
    ensures exists z: nat :: ValidProc(init, z) && CanEverWait(init, z)
  {
    hide Init, OnePublisher, SomeBusy, CanProceed;
    if forall k: nat | k < |init.slots| :: OnePublisher(init, k) {
      forall k: nat | k < |init.slots|
        ensures SafeTopic(init, actions, k)
      {
        assert OnePublisher(init, k);
      }
      DeadlockFreedom(init, actions, s);
    }
    StuckOnlyByOverrun(init, actions, s);
    var j: nat :| j < |s.procs| && s.procs[j].mode.GlobalWait?;
    if forall z: nat | ValidProc(init, z) :: !CanEverWait(init, z) {
      NobodyWaits(init, actions, s, j);
    }
  }

  lemma TwoPublishersDeadlock(init: State, k: nat, z: nat)
    requires Init(init) && k < |init.slots| && !OnePublisher(init, k)
    requires ValidProc(init, z) && CanEverWait(init, z)
    ensures CanDeadlock(init)
  {
    var i: nat, j: nat :| IsPub(init, i, k) && IsPub(init, j, k) && i != j;
    hide Init, SomeBusy, CanProceed, OnePublisher;
    var c, u, p, q, y := Breaks.OverrunRun(init, k, i, j, Zeros(9), Zeros(8));
    Breaks.HaltedOnStage(c, u, p, q, y);
    hide Scenarios.OnStage, Scenarios.Leads, Breaks.AllHalted, CanDeadlock;
    var w, more := WaiterAfterOverrun(init, c, u, p, q, y, z);
    Deadlocks(init, u, [(i, Zeros(9))] + [(j, Zeros(8))], w, more);
  }

  /** Process z, or the publisher whose block z's is, comes to wait behind the overrun. */
  lemma WaiterAfterOverrun(init: State, c: Scenarios.Cast, u: State, p: Proc, q: Proc, y: Slot, z: nat)
    returns (w: State, more: seq<(nat, Bytes)>)
    requires Init(init) && c.s == init && |c.ids| == 2 && Scenarios.CastOk(c)
    requires Scenarios.OnStage(c, u, [p, q], y, 1) && Breaks.AllHalted(u)
    requires forall i | i in c.ids :: i < |init.procs| && init.procs[i].role.Publisher?
    requires ValidProc(init, z) && CanEverWait(init, z)
    requires Solo.Tidy(y) && q.role.Publisher? && q.loc.Idle? && q.handle == FreshHandle(y)
    requires y.desc.capacity == (if 9 > init.slots[c.k].desc.capacity then 9 else init.slots[c.k].desc.capacity)
    ensures Scenarios.Leads(u, w, more) && SomeBusy(w) && !CanProceed(w)
  {
    hide Init, SomeBusy, CanProceed, Scenarios.OnStage, Scenarios.Leads, Breaks.AllHalted;
    if init.procs[z].handle.NoHandle? {
      NewcomerUntouched(init, c, u, [p, q], y, z);
      w := Breaks.FindingWaitsForever(u, z);
      more := [];
    } else if init.procs[z].slot == c.k {
      Scenarios.ViewOnStage(c, u, [p, q], y, 1, 1);
      var o := Zeros(y.desc.capacity + 1);
      w := Breaks.GrowingWaitsForever(u, c.ids[1], o);
      more := [(c.ids[1], o)];
    } else {
      PublisherUntouched(init, c, u, [p, q], y, z);
      var o := Zeros(init.slots[init.procs[z].slot].desc.capacity + 1);
      w := Breaks.GrowingWaitsForever(u, z, o);
      more := [(z, o)];
    }
  }

  lemma NewcomerUntouched(init: State, c: Scenarios.Cast, u: State, ps: seq<Proc>, y: Slot, z: nat)
    requires Init(init) && c.s == init && Scenarios.OnStage(c, u, ps, y, 1) && ValidProc(init, z)
    requires init.procs[z].handle.NoHandle?
    requires forall i | i in c.ids :: i < |init.procs| && init.procs[i].role.Publisher?
    ensures ValidProc(u, z) && u.gclients != 0
    ensures var p := u.procs[z]; p.role.Subscriber? && p.loc.Idle? && p.handle.NoHandle?
  {
    assert InitProc(init, init.procs[z]);
    assert z !in c.ids by {
      assert forall i | i in c.ids :: InitProc(init, init.procs[i]);
    }
  }

  lemma PublisherUntouched(init: State, c: Scenarios.Cast, u: State, ps: seq<Proc>, y: Slot, z: nat)
    requires Init(init) && c.s == init && Scenarios.OnStage(c, u, ps, y, 1) && ValidProc(init, z)
    requires init.procs[z].role.Publisher? && init.procs[z].slot != c.k
    requires forall i | i in c.ids :: i < |init.procs| && init.procs[i].slot == c.k
    ensures ValidProc(u, z) && u.gclients != 0
    ensures var p, x := u.procs[z], u.slots[u.procs[z].slot];
      && p.role.Publisher? && p.loc.Idle? && p.handle == FreshHandle(x) && Solo.Tidy(x)
      && x == init.slots[init.procs[z].slot]
  {
    assert InitProc(init, init.procs[z]) && InitSlot(init.slots[init.procs[z].slot]);
    assert z !in c.ids;
  }

  lemma Deadlocks(init: State, u: State, begun: seq<(nat, Bytes)>, w: State, more: seq<(nat, Bytes)>)
    requires Scenarios.Leads(init, u, begun) && Scenarios.Leads(u, w, more) && SomeBusy(w) && !CanProceed(w)
    ensures CanDeadlock(init)
  {
    Scenarios.LeadsOn(init, u, begun, w, more);
    var actions :| Run(init, actions) == Some(w) && Scenarios.Begun(actions) == begun + more;
  }
}
