/** Conservation on a topic with any number of users: whatever is published on it is a
    message that one of its publishers began to publish. */
module ProtocolSent {
  import opened Options
  import opened Bytes
  import opened ProtocolModel
  import opened ProtocolControl
  import opened ProtocolExclusion
  import opened ProtocolStreams

  /** The messages whose publish on slot k begins, in order. */
  function TopicMessages(init: State, actions: seq<Action>, k: nat): seq<Bytes> {
    if actions == [] then [] else
    var a := actions[|actions| - 1];
    TopicMessages(init, actions[..|actions| - 1], k)
      + if a.BeginPublish? && OnSlot(init, a.i, k) then [a.m] else []
  }

  ghost predicate AllSent(s: State, k: nat, sent: seq<Bytes>) {
    && k < |s.slots|
    && (forall c | 0 <= c < |s.slots[k].published| :: s.slots[k].published[c] in sent)
    && (forall i: nat | OnSlot(s, i, k) && Publishes(s.procs[i]) :: s.procs[i].msg in sent)
  }

  lemma LocalPublishes(x: Slot, p: Proc)
    ensures var y := LocalStep(x, p).0;
      y.published == x.published || (p.loc.SWrite? && y.published == x.published + [p.msg])
  {
    match p.loc
    case SWrite =>
    case _ =>
  }

  lemma ActPublishes(v: View, a: Action, n: nat)
    requires CanAct(v, a) && ShapeIn(n, v.p)
    ensures var y := Act(v, a).v.x;
      y.published == v.x.published || (Publishes(v.p) && y.published == v.x.published + [v.p.msg])
  {
    if IsDataStep(v, a) {
      LocalPublishes(v.x, v.p);
    } else {
      OtherSteps(v, a, n);
    }
  }

  lemma WakeSends(p: Proc, k: nat, c: Option<Cond>)
    ensures Publishes(Wake(p, k, c)) == Publishes(p) && Wake(p, k, c).msg == p.msg
  {
  }

  lemma SentStep(s: State, a: Action, k: nat, sent: seq<Bytes>)
    requires Control(s) && Enabled(s, a) && AllSent(s, k, sent)
    requires a.BeginPublish? && OnSlot(s, a.i, k) ==> a.m in sent
    ensures AllSent(Apply(s, a), k, sent)
  {
    var t, v := Apply(s, a), ViewOf(s, a.i);
    assert ShapeIn(|s.slots|, v.p);
    ActPublishes(v, a, |s.slots|);
    ActKeepsMessage(v, a, |s.slots|);
    PlacesKept(s, a);
    OthersAreWoken(s, a, a.i);
    assert OnSlot(s, a.i, k) && Publishes(v.p) ==> v.p.msg in sent;
    hide Act, CanAct, Apply, Control, Publishes;
    forall i: nat | OnSlot(t, i, k) && Publishes(t.procs[i])
      ensures t.procs[i].msg in sent
    {
      OthersAreWoken(s, a, i);
      assert OnSlot(s, i, k);
      WakeSends(if i == a.i then Act(v, a).v.p else s.procs[i], v.p.slot, Act(v, a).signal);
    }
  }

  lemma SentBefore(s: State, k: nat, sent: seq<Bytes>, more: seq<Bytes>)
    requires AllSent(s, k, sent)
    ensures AllSent(s, k, sent + more)
  {
  }

  lemma {:induction false} SentAlways(s: State, actions: seq<Action>, k: nat)
    requires Init(s) && Run(s, actions).Some? && k < |s.slots|
    ensures AllSent(Run(s, actions).value, k, TopicMessages(s, actions, k))
  {
    if actions == [] {
      assert InitSlot(s.slots[k]);
      assert forall i: nat | OnSlot(s, i, k) :: InitProc(s, s.procs[i]);
    } else {
      hide Init, Control, Enabled, Apply, AllSent;
      var front, a := actions[..|actions| - 1], actions[|actions| - 1];
      var sent := TopicMessages(s, front, k);
      SentAlways(s, front, k);
      ControlAlways(s, front);
      PlacesStay(s, front, a.i, k);
      SentBefore(Run(s, front).value, k, sent, if a.BeginPublish? && OnSlot(s, a.i, k) then [a.m] else []);
      SentStep(Run(s, front).value, a, k, TopicMessages(s, actions, k));
    }
  }

  /** In every run the messages published on a topic are among those whose publish on it
      began. */
  lemma PublishedWasBegun(init: State, actions: seq<Action>, s: State, k: nat, c: nat)
    requires Init(init) && Run(init, actions) == Some(s) && k < |init.slots|
    ensures k < |s.slots| && (c < |s.slots[k].published| ==> s.slots[k].published[c] in TopicMessages(init, actions, k))
  {
    SentAlways(init, actions, k);
  }
}
