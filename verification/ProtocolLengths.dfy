/** Messages of one length on a topic with one publisher and one subscriber are never torn. */
module ProtocolLengths {
  import opened Options
  import opened ProtocolModel
  import opened ProtocolControl
  import opened ProtocolData
  import opened ProtocolExclusion
  import opened ProtocolDelivery
  import opened ProtocolStreams

  // ---------------------------------------------------------------- messages of one length

  ghost predicate SlotLength(x: Slot, n: nat) {
    && (forall c | 0 <= c < |x.published| :: |x.published[c]| == n)
    && (x.published != [] ==> x.desc.size == n)
  }

  ghost predicate SubLength(q: Proc, n: nat) {
    forall d | 0 <= d < |q.got| :: |q.got[d]| == n
  }

  ghost predicate Lengths(s: State, k: nat, n: nat)
    requires k < |s.slots|
  {
    && SlotLength(s.slots[k], n)
    && (forall i: nat | OnSlot(s, i, k) :: PubLength(s.procs[i], n) && SubLength(s.procs[i], n))
  }

  lemma PublisherLength(v: View, a: Action, n: nat, m: nat)
    requires CanAct(v, a) && ShapeIn(m, v.p) && v.p.role.Publisher? && PubOk(v.p, v.x)
    requires PubLength(v.p, n) && SlotLength(v.x, n)
    requires a.BeginPublish? ==> |a.m| == n
    ensures PubLength(Act(v, a).v.p, n) && SlotLength(Act(v, a).v.x, n)
    ensures Act(v, a).v.p.got == v.p.got
  {
    ActKeepsMessage(v, a, m);
    if IsDataStep(v, a) {
      PublisherLocalLength(v.x, v.p, n);
      hide PubLength, LocalStep;
    } else {
      OtherSteps(v, a, m);
      hide Act, CanAct, Succ, InstrAt, PubOk;
    }
  }

  lemma PublisherLocalLength(x: Slot, p: Proc, n: nat)
    requires InstrAt(p.loc).Local? && Publishes(p) && PubOk(p, x) && PubLength(p, n) && SlotLength(x, n)
    ensures var (y, q) := LocalStep(x, p); SlotLength(y, n) && q.got == p.got
  {
    hide Newest, Content;
    match p.loc
    case SWrite =>
    case RRecreate | RRecord =>
    case _ =>
  }

  lemma SubscriberKeepsStore(v: View, a: Action, n: nat)
    requires CanAct(v, a) && ShapeIn(n, v.p) && v.p.role.Subscriber?
    ensures SameStore(v.x, Act(v, a).v.x)
  {
  }

  lemma SubscriberLength(v: View, a: Action, n: nat, m: nat)
    requires CanAct(v, a) && ShapeIn(m, v.p) && v.p.role.Subscriber?
    requires StoreOk(v.x) && ProcData(v.p, v.x) && SubOk(v.p, v.x)
    requires SubLength(v.p, n) && SlotLength(v.x, n)
    ensures RoleOf(Act(v, a).v.p.loc) != Some(Publisher) && SlotLength(Act(v, a).v.x, n)
    ensures Act(v, a).v.p.got == v.p.got
         || (Act(v, a).v.p.got == v.p.got + [v.p.acc] && |v.p.acc| == n)
  {
    hide Received, SeenBefore, Content, ProcData, StoreOk;
    SubscriberKeepsStore(v, a, m);
    ActKeepsShape(v, a, m);
    if !IsDataStep(v, a) {
      SubscriberOther(v, a, m);
    }
  }

  lemma ActAndLength(v: View, a: Action, n: nat, m: nat)
    requires CanAct(v, a) && ShapeIn(m, v.p) && StoreOk(v.x) && ProcData(v.p, v.x)
    requires v.p.role.Publisher? ==> PubOk(v.p, v.x)
    requires v.p.role.Subscriber? ==> SubOk(v.p, v.x)
    requires PubLength(v.p, n) && SubLength(v.p, n) && SlotLength(v.x, n)
    requires a.BeginPublish? ==> |a.m| == n
    ensures PubLength(Act(v, a).v.p, n) && SubLength(Act(v, a).v.p, n) && SlotLength(Act(v, a).v.x, n)
  {
    hide Act, CanAct;
    if v.p.role.Publisher? {
      PublisherLength(v, a, n, m);
    } else {
      SubscriberLength(v, a, n, m);
    }
  }

  lemma LengthsStep(s: State, a: Action, k: nat, n: nat)
    requires Topic(s, k) && Lengths(s, k, n) && Enabled(s, a)
    requires a.BeginPublish? && OnSlot(s, a.i, k) ==> |a.m| == n
    ensures Lengths(Apply(s, a), k, n)
  {
    var t, v := Apply(s, a), ViewOf(s, a.i);
    if OnSlot(s, a.i, k) {
      LengthOnTopic(s, a, k, n);
    }
    PlacesKept(s, a);
    OthersAreWoken(s, a, a.i);
    hide Act, CanAct, Apply, Topic, PubLength, SubLength;
    forall i: nat | OnSlot(t, i, k)
      ensures PubLength(t.procs[i], n) && SubLength(t.procs[i], n)
    {
      assert OnSlot(s, i, k);
      OthersAreWoken(s, a, i);
      WakeLengths(if i == a.i then Act(v, a).v.p else s.procs[i], v.p.slot, Act(v, a).signal, n);
    }
  }

  lemma WakeLengths(p: Proc, k: nat, c: Option<Cond>, n: nat)
    ensures PubLength(Wake(p, k, c), n) == PubLength(p, n) && SubLength(Wake(p, k, c), n) == SubLength(p, n)
  {
  }

  lemma LengthOnTopic(s: State, a: Action, k: nat, n: nat)
    requires Topic(s, k) && Lengths(s, k, n) && Enabled(s, a) && OnSlot(s, a.i, k)
    requires a.BeginPublish? ==> |a.m| == n
    ensures var w := Act(ViewOf(s, a.i), a).v; PubLength(w.p, n) && SubLength(w.p, n) && SlotLength(w.x, n)
  {
    hide Act, CanAct, PubOk, SubOk, PubLength, SubLength, SlotLength, StoreOk, ProcData;
    assert IsPub(s, a.i, k) || IsSub(s, a.i, k);
    ActAndLength(ViewOf(s, a.i), a, n, |s.slots|);
  }

  lemma {:induction false} LengthsAlways(s: State, actions: seq<Action>, k: nat, n: nat)
    requires Init(s) && Run(s, actions).Some? && k < |s.slots| && OneToOne(s, k)
    requires AllOfLength(s, actions, k, n)
    ensures var t := Run(s, actions).value;
      k < |t.slots| && Lengths(t, k, n)
  {
    if actions != [] {
      var front, a := actions[..|actions| - 1], actions[|actions| - 1];
      LengthsAlways(s, front, k, n);
      TopicAlways(s, front, k);
      PlacesStay(s, front, a.i, k);
      LengthsStep(Run(s, front).value, a, k, n);
    }
  }

  /** When all messages of a one-to-one topic have one length, every delivery is, byte
      for byte, one of the published messages, in order and at most once. */
  lemma EqualLengthDelivery(init: State, actions: seq<Action>, s: State, k: nat, j: nat, n: nat)
    requires Init(init) && k < |init.slots| && OneToOne(init, k)
    requires Run(init, actions) == Some(s) && IsSub(s, j, k)
    requires AllOfLength(init, actions, k, n)
    ensures k < |s.slots|
    ensures var q, published := s.procs[j], s.slots[k].published;
      && |q.got| == |q.seen|
      && (forall d | 0 <= d < |q.seen| :: 0 <= q.seen[d] < |published| && q.got[d] == published[q.seen[d]])
      && (forall d, e | 0 <= d < e < |q.seen| :: q.seen[d] < q.seen[e])
  {
    InOrderUntornDelivery(init, actions, s, k, j);
    LengthsAlways(init, actions, k, n);
    assert OnSlot(s, j, k);
  }
}
