/** The order of deliveries on a topic with any number of publishers and subscribers:
    every subscriber is woken for published messages only, for newer ones each time. */
module ProtocolOrder {
  import opened Options
  import opened ProtocolModel
  import opened ProtocolControl
  import opened ProtocolExclusion
  import opened ProtocolDelivery

  // ---------------------------------------------------------------- invariant

  /** Each delivery is of a published message, and of a newer one than those before. */
  ghost predicate Numbered(q: Proc, count: nat) {
    && |q.got| == |q.seen|
    && (forall d | 0 <= d < |q.seen| :: 0 <= q.seen[d] < count)
    && (forall d, e | 0 <= d < e < |q.seen| :: q.seen[d] < q.seen[e])
  }

  /** A subscriber that is to receive has not received the newest message. */
  ghost predicate SubOrder(q: Proc, count: nat) {
    Numbered(q, count) && (Due(q) ==> count > 0 && SeenBefore(q, count - 1))
  }

  /** Nor has one that waits while the newest message is still to be announced. */
  ghost predicate PairOrder(p: Proc, q: Proc, count: nat) {
    Unannounced(p) ==> count > 0 && (q.mode.DataWait? ==> SeenBefore(q, count - 1))
  }

  function Published(s: State, k: nat): nat
    requires k < |s.slots|
  {
    |s.slots[k].published|
  }

  ghost predicate Ordered(s: State, k: nat)
    requires k < |s.slots|
  {
    && (forall j: nat | IsSub(s, j, k) :: SubOrder(s.procs[j], Published(s, k)))
    && (forall i: nat, j: nat | IsPub(s, i, k) && IsSub(s, j, k) ::
          PairOrder(s.procs[i], s.procs[j], Published(s, k)))
  }

  // ---------------------------------------------------------------- one step of a view

  /** A publisher adds at most its message, and signals data before it is past the signal. */
  ghost predicate PubMoves(p: Proc, count: nat, e: Effect) {
    var next := |e.v.x.published|;
    && next in {count, count + 1}
    && (Unannounced(e.v.p) ==> next == count + 1 || Unannounced(p))
    && (e.signal == Some(DataCond) ==> Unannounced(p) && next == count)
  }

  lemma PublisherMoves(v: View, a: Action, n: nat)
    requires CanAct(v, a) && ShapeIn(n, v.p) && v.p.role.Publisher?
    ensures PubMoves(v.p, |v.x.published|, Act(v, a))
  {
    if IsDataStep(v, a) {
      PublisherAppends(v.x, v.p);
    } else {
      PhasesFollow(v.p.loc);
      OnlyPublishersSignal(v.p.loc);
      OtherSteps(v, a, n);
      assert RoleOf(v.p.loc) == None ==> v.p.loc.Idle?;
      hide Act, CanAct, Succ, InstrAt, RoleOf;
    }
  }

  lemma PublisherAppends(x: Slot, p: Proc)
    requires InstrAt(p.loc).Local? && RoleOf(p.loc) == Some(Publisher)
    ensures var (y, q) := LocalStep(x, p);
      |y.published| == |x.published| + (if Unannounced(q) then 1 else 0)
  {
    match p.loc
    case SWrite =>
    case RRecreate | RRecord =>
    case _ =>
  }

  /** A subscriber leaves the record alone; it receives only when it is to, the newest
      message, and goes to wait only with the slot mutex. */
  ghost predicate SubMoves(q: Proc, count: nat, e: Effect) {
    var r := e.v.p;
    && |e.v.x.published| == count && e.signal != Some(DataCond)
    && (Due(r) ==> Due(q)) && (r.mode.DataWait? ==> HoldsSlot(q))
    && (if r.seen == q.seen then |r.got| == |q.got|
        else Due(q) && !Due(r) && !r.mode.DataWait?
             && |r.got| == |q.got| + 1 && r.seen == q.seen + [count - 1])
  }

  lemma SubscriberMoves(v: View, a: Action, n: nat)
    requires CanAct(v, a) && ShapeIn(n, v.p) && v.p.role.Subscriber?
    ensures SubMoves(v.p, |v.x.published|, Act(v, a))
  {
    if IsDataStep(v, a) {
      SubscriberReceives(v.x, v.p);
    } else {
      SubscriberOther(v, a, n);
      OtherSteps(v, a, n);
      WaitsWithMutex(v, a, n);
      hide Act, CanAct, Due, Moves, HoldsSlot;
    }
  }

  lemma WaitsWithMutex(v: View, a: Action, n: nat)
    requires CanAct(v, a) && ShapeIn(n, v.p) && v.p.role.Subscriber?
    requires Moves(v.p, a, Act(v, a).v.p)
    ensures Act(v, a).v.p.mode.DataWait? ==> HoldsSlot(v.p)
  {
  }

  lemma SubscriberReceives(x: Slot, q: Proc)
    requires InstrAt(q.loc).Local? && RoleOf(q.loc) == Some(Subscriber) && q.mode.Running?
    ensures SubMoves(q, |x.published|, Effect(View(LocalStep(x, q).1, LocalStep(x, q).0, None, 0), None))
  {
    match q.loc
    case WRead =>
    case _ =>
  }

  // ---------------------------------------------------------------- one step of the state

  lemma WakeOrder(p: Proc, k: nat, c: Option<Cond>)
    ensures var q := Wake(p, k, c);
      && q.seen == p.seen && q.got == p.got && Unannounced(q) == Unannounced(p)
      && (q.mode.DataWait? ==> p.mode.DataWait?)
      && (Due(q) ==> Due(p) || (c == Some(DataCond) && p.mode.DataWait?))
  {
  }

  lemma SubOrderKept(q: Proc, r: Proc, count: nat, next: nat)
    requires SubOrder(q, count) && next >= count && r.seen == q.seen && |r.got| == |q.got|
    requires Due(r) ==> next > 0 && SeenBefore(r, next - 1)
    ensures SubOrder(r, next)
  {
  }

  lemma PublisherHolds(p: Proc, n: nat)
    requires ShapeIn(n, p) && Unannounced(p)
    ensures HoldsSlot(p)
  {
  }

  /** A subscriber of the slot after a step of one of its publishers. */
  lemma SubAfterPub(q: Proc, p: Proc, count: nat, e: Effect, k: nat)
    requires SubOrder(q, count) && PairOrder(p, q, count) && PubMoves(p, count, e)
    ensures SubOrder(Wake(q, k, e.signal), |e.v.x.published|)
    ensures PairOrder(Wake(e.v.p, k, e.signal), Wake(q, k, e.signal), |e.v.x.published|)
  {
    WakeOrder(q, k, e.signal);
    WakeOrder(e.v.p, k, e.signal);
    hide Due, Unannounced, Wake;
    SubOrderKept(q, Wake(q, k, e.signal), count, |e.v.x.published|);
  }

  /** Another publisher of the slot, before the same subscriber. */
  lemma PairAfterPub(p: Proc, q: Proc, o: Proc, count: nat, e: Effect, k: nat)
    requires SubOrder(q, count) && PairOrder(p, q, count) && PairOrder(o, q, count) && PubMoves(p, count, e)
    ensures PairOrder(Wake(o, k, e.signal), Wake(q, k, e.signal), |e.v.x.published|)
  {
    WakeOrder(q, k, e.signal);
    WakeOrder(o, k, e.signal);
    hide Due, Unannounced, Wake;
  }

  /** A subscriber after its own step. */
  lemma SubAfterItsMove(q: Proc, count: nat, e: Effect, k: nat)
    requires SubOrder(q, count) && SubMoves(q, count, e)
    ensures SubOrder(Wake(e.v.p, k, e.signal), count)
  {
    WakeOrder(e.v.p, k, e.signal);
    hide Due, Wake;
  }

  /** A publisher of its slot, before the subscriber that has taken a step. */
  lemma PairAfterItsMove(q: Proc, p: Proc, count: nat, e: Effect, k: nat)
    requires PairOrder(p, q, count) && SubMoves(q, count, e) && (Unannounced(p) ==> !HoldsSlot(q))
    ensures PairOrder(Wake(p, k, e.signal), Wake(e.v.p, k, e.signal), count)
  {
    WakeOrder(e.v.p, k, e.signal);
    WakeOrder(p, k, e.signal);
    hide Due, Unannounced, Wake, HoldsSlot;
  }

  /** Somebody else's step that signals no data to the slot. */
  lemma SubUndisturbed(q: Proc, count: nat, k: nat, c: Option<Cond>)
    requires SubOrder(q, count) && (c == Some(DataCond) ==> q.slot != k)
    ensures SubOrder(Wake(q, k, c), count)
  {
  }

  lemma PairUndisturbed(p: Proc, q: Proc, count: nat, k: nat, c: Option<Cond>)
    requires PairOrder(p, q, count)
    ensures PairOrder(Wake(p, k, c), Wake(q, k, c), count)
  {
  }

  /** What a step of process a.i does, as far as order goes. */
  lemma StepMoves(s: State, a: Action)
    requires Control(s) && Enabled(s, a)
    ensures var v := ViewOf(s, a.i); var e, n := Act(v, a), |v.x.published|;
      && (v.p.role.Publisher? ==> PubMoves(v.p, n, e))
      && (v.p.role.Subscriber? ==> SubMoves(v.p, n, e) && |e.v.x.published| == n && e.signal != Some(DataCond))
  {
    var v := ViewOf(s, a.i);
    assert ShapeIn(|s.slots|, v.p);
    if v.p.role.Publisher? {
      PublisherMoves(v, a, |s.slots|);
    } else {
      SubscriberMoves(v, a, |s.slots|);
    }
  }

  /** Subscriber j of slot k after a step of process a.i. */
  lemma SubStep(s: State, a: Action, k: nat, j: nat)
    requires Control(s) && k < |s.slots| && Ordered(s, k) && Enabled(s, a) && IsSub(s, j, k)
    ensures var t := Apply(s, a);
      j < |t.procs| && k < |t.slots| && SubOrder(t.procs[j], Published(t, k))
  {
    var v, q, n := ViewOf(s, a.i), s.procs[j], Published(s, k);
    var e := Act(v, a);
    assert SubOrder(q, n);
    OthersAreWoken(s, a, j);
    StepMoves(s, a);
    assert OnSlot(s, a.i, k) && v.p.role.Publisher? ==> PairOrder(v.p, q, n);
    hide Act, CanAct, Apply, Control, Ordered, SubOrder, PairOrder, PubMoves, SubMoves, Wake;
    if v.p.slot != k {
      SubUndisturbed(q, n, v.p.slot, e.signal);
    } else if v.p.role.Publisher? {
      SubAfterPub(q, v.p, n, e, k);
    } else if a.i == j {
      SubAfterItsMove(q, n, e, k);
    } else {
      SubUndisturbed(q, n, k, e.signal);
    }
  }

  /** Publisher i and subscriber j of slot k after a step of process a.i. */
  lemma PairStep(s: State, a: Action, k: nat, i: nat, j: nat)
    requires Control(s) && k < |s.slots| && Ordered(s, k) && Enabled(s, a) && IsPub(s, i, k) && IsSub(s, j, k)
    ensures var t := Apply(s, a);
      i < |t.procs| && j < |t.procs| && k < |t.slots| && PairOrder(t.procs[i], t.procs[j], Published(t, k))
  {
    var v, p, q, n := ViewOf(s, a.i), s.procs[i], s.procs[j], Published(s, k);
    var e := Act(v, a);
    assert SubOrder(q, n) && PairOrder(p, q, n);
    OthersAreWoken(s, a, i);
    OthersAreWoken(s, a, j);
    StepMoves(s, a);
    MutexApart(s, i, j);
    assert OnSlot(s, a.i, k) && v.p.role.Publisher? ==> PairOrder(v.p, q, n);
    hide Act, CanAct, Apply, Control, Ordered, SubOrder, PairOrder, PubMoves, SubMoves, Wake;
    if v.p.slot != k {
      PairUndisturbed(p, q, n, v.p.slot, e.signal);
    } else if a.i == i {
      SubAfterPub(q, p, n, e, k);
    } else if a.i == j {
      PairAfterItsMove(q, p, n, e, k);
    } else if v.p.role.Publisher? {
      PairAfterPub(v.p, q, p, n, e, k);
    } else {
      PairUndisturbed(p, q, n, k, e.signal);
    }
  }

  lemma MutexApart(s: State, i: nat, j: nat)
    requires Control(s) && i < |s.procs| && j < |s.procs| && s.procs[i].slot == s.procs[j].slot && i != j
    ensures Unannounced(s.procs[i]) ==> !HoldsSlot(s.procs[j])
  {
    if Unannounced(s.procs[i]) && HoldsSlot(s.procs[j]) {
      assert ShapeIn(|s.slots|, s.procs[i]);
      PublisherHolds(s.procs[i], |s.slots|);
      OneSlotHolder(s, i, j);
    }
  }

  lemma OrderedStep(s: State, a: Action, k: nat)
    requires Control(s) && k < |s.slots| && Ordered(s, k) && Enabled(s, a)
    ensures k < |Apply(s, a).slots| && Ordered(Apply(s, a), k)
  {
    var t := Apply(s, a);
    PlacesKept(s, a);
    OthersAreWoken(s, a, a.i);
    hide Act, CanAct, Apply, Control, Enabled, Ordered, SubOrder, PairOrder;
    forall j: nat | IsSub(t, j, k)
      ensures SubOrder(t.procs[j], Published(t, k))
    {
      SubStep(s, a, k, j);
    }
    forall i: nat, j: nat | IsPub(t, i, k) && IsSub(t, j, k)
      ensures PairOrder(t.procs[i], t.procs[j], Published(t, k))
    {
      PairStep(s, a, k, i, j);
    }
    IsOrdered(t, k);
  }

  lemma IsOrdered(s: State, k: nat)
    requires k < |s.slots|
    requires forall j: nat | IsSub(s, j, k) :: SubOrder(s.procs[j], Published(s, k))
    requires forall i: nat, j: nat | IsPub(s, i, k) && IsSub(s, j, k) ::
               PairOrder(s.procs[i], s.procs[j], Published(s, k))
    ensures Ordered(s, k)
  {
  }

  lemma OrderedInit(s: State, k: nat)
    requires Init(s) && k < |s.slots|
    ensures Ordered(s, k)
  {
    forall j: nat | OnSlot(s, j, k)
      ensures SubOrder(s.procs[j], Published(s, k)) && !Unannounced(s.procs[j])
    {
      assert InitProc(s, s.procs[j]);
    }
  }

  lemma {:induction false} OrderedAlways(s: State, actions: seq<Action>, k: nat)
    requires Init(s) && Run(s, actions).Some? && k < |s.slots|
    ensures var t := Run(s, actions).value; Control(t) && k < |t.slots| && Ordered(t, k)
  {
    hide Init, Control, Enabled, Apply, Ordered;
    ControlAlways(s, actions);
    if actions == [] {
      OrderedInit(s, k);
    } else {
      var front := actions[..|actions| - 1];
      OrderedAlways(s, front, k);
      OrderedStep(Run(s, front).value, actions[|actions| - 1], k);
    }
  }

  // ---------------------------------------------------------------- result

  /** In every run, on a topic with any publishers and subscribers, each delivery to a
      subscriber is made for a published message, the newest when its bytes have been
      read, and for a newer one than every delivery before: none comes twice or out of
      order, whatever the bytes are. */
  lemma InOrderDelivery(init: State, actions: seq<Action>, s: State, k: nat, j: nat)
    requires Init(init) && k < |init.slots|
    requires Run(init, actions) == Some(s) && IsSub(s, j, k)
    ensures k < |s.slots|
    ensures var q, published := s.procs[j], s.slots[k].published;
      && |q.got| == |q.seen|
      && (forall d | 0 <= d < |q.seen| :: 0 <= q.seen[d] < |published|)
      && (forall d, e | 0 <= d < e < |q.seen| :: q.seen[d] < q.seen[e])
  {
    OrderedAlways(init, actions, k);
    assert SubOrder(s.procs[j], Published(s, k));
  }
}
