/** When a subscriber can be delivered bytes that nobody sent: the exact condition, over
    the users of a topic and the lengths of its messages. */
module ProtocolMixing {
  import opened Options
  import opened Bytes
  import opened ProtocolModel
  import opened ProtocolControl
  import opened ProtocolData
  import opened ProtocolExclusion
  import opened ProtocolDelivery
  import opened ProtocolOrder
  import opened ProtocolStreams
  import opened ProtocolLengths
  import opened ProtocolSent
  import opened ProtocolExactness
  import Scenarios = ProtocolScenarios
  import Breaks = ProtocolBreaks
  import Crowds = ProtocolCrowds

  /** Delivery d of subscriber j is none of the messages whose publish on slot k has begun. */
  ghost predicate UnsentAt(init: State, k: nat, lens: set<nat>, actions: seq<Action>, s: State, j: nat, d: nat) {
    && Run(init, actions) == Some(s) && WithLengths(init, actions, k, lens)
    && IsSub(s, j, k) && d < |s.procs[j].got| && s.procs[j].got[d] !in TopicMessages(init, actions, k)
  }

  /** Some run with messages of these lengths delivers what nobody sent. */
  ghost predicate DeliversUnsent(init: State, k: nat, lens: set<nat>) {
    exists actions: seq<Action>, s: State, j: nat, d: nat :: UnsentAt(init, k, lens, actions, s, j, d)
  }

  ghost predicate TwoLengths(lens: set<nat>) {
    exists m, n :: m in lens && n in lens && m != n
  }

  // ---------------------------------------------------------------- it can

  function Ones(n: nat): (r: Bytes)
    ensures |r| == n && forall i | 0 <= i < n :: r[i] == 1
  {
    seq(n, i => 1)
  }

  lemma {:induction false} TopicAmongBegun(init: State, actions: seq<Action>, k: nat, g: Bytes)
    requires g in TopicMessages(init, actions, k)
    ensures exists d :: 0 <= d < |Scenarios.Begun(actions)| && Scenarios.Begun(actions)[d].1 == g
  {
    var front, a := actions[..|actions| - 1], actions[|actions| - 1];
    var all := Scenarios.Begun(actions);
    if g in TopicMessages(init, front, k) {
      TopicAmongBegun(init, front, k, g);
      var d :| 0 <= d < |Scenarios.Begun(front)| && Scenarios.Begun(front)[d].1 == g;
      assert all[d].1 == g;
    } else {
      assert all[|all| - 1] == (a.i, a.m);
    }
  }

  lemma UnsentRun(init: State, k: nat, lens: set<nat>, u: State, begun: seq<(nat, Bytes)>, j: nat, g: Bytes)
    requires Init(init) && Scenarios.Leads(init, u, begun) && IsSub(init, j, k)
    requires j < |u.procs| && u.procs[j].got != [] && u.procs[j].got[|u.procs[j].got| - 1] == g
    requires forall d | 0 <= d < |begun| :: begun[d].1 != g && |begun[d].1| in lens
    ensures DeliversUnsent(init, k, lens)
  {
    hide Init;
    var actions :| Run(init, actions) == Some(u) && Scenarios.Begun(actions) == begun;
    BegunWithin(init, actions, k, lens);
    PlacesStay(init, actions, j, k);
    if g in TopicMessages(init, actions, k) {
      TopicAmongBegun(init, actions, k, g);
    }
    assert UnsentAt(init, k, lens, actions, u, j, |u.procs[j].got| - 1);
  }

  /** Two readers, or two publishers: messages of one length are enough. */
  lemma CrowdMixes(init: State, k: nat, lens: set<nat>, n: nat)
    requires Init(init) && k < |init.slots| && n in lens && 8 <= n < UINT32
    requires HasPublisher(init, k) && HasSubscriber(init, k) && !OneToOne(init, k)
    ensures DeliversUnsent(init, k, lens)
  {
    var a: nat :| IsPub(init, a, k);
    var b: nat :| IsSub(init, b, k);
    var i, j :| 0 <= i < j < |init.procs| && init.procs[i].slot == init.procs[j].slot == k
             && init.procs[i].role == init.procs[j].role;
    hide Init, DeliversUnsent;
    if init.procs[i].role.Publisher? {
      var c, t, ps, x := Crowds.TwoPublishersPoised(init, k, i, b, j, Zeros(n), Ones(n));
      var u, g := Crowds.MixesOnStage(init, c, t, ps, x, 1, Zeros(n), Ones(n));
      MixedIsUnsent(init, k, lens, u, b, g, n);
    } else {
      var c, t, ps, x := Crowds.TwoReadersPoised(init, k, a, i, j, Zeros(n), Ones(n));
      var u, g := Crowds.MixesOnStage(init, c, t, ps, x, 2, Zeros(n), Ones(n));
      MixedIsUnsent(init, k, lens, u, j, g, n);
    }
  }

  lemma MixedIsUnsent(init: State, k: nat, lens: set<nat>, u: State, j: nat, g: Bytes, n: nat)
    requires Init(init) && IsSub(init, j, k) && n in lens && n >= 8
    requires Crowds.Mixed(init, u, j, g, Zeros(n), Ones(n)) && g == Zeros(n)[..1] + Ones(n)[1..]
    ensures DeliversUnsent(init, k, lens)
  {
    hide Init, DeliversUnsent, Scenarios.Leads;
    var begun :| Scenarios.Leads(init, u, begun) && Crowds.Among(begun, Zeros(n), Ones(n));
    assert g[0] != Ones(n)[0] && g[1] != Zeros(n)[1];
    UnsentRun(init, k, lens, u, begun, j, g);
  }

  /** One reader and one publisher: messages of two lengths. */
  lemma LengthsMix(init: State, k: nat, lens: set<nat>, m: nat, n: nat)
    requires Init(init) && k < |init.slots| && OneToOne(init, k) && HasPublisher(init, k) && HasSubscriber(init, k)
    requires m in lens && n in lens && m != n && 8 <= m < UINT32 && 8 <= n < UINT32
    ensures DeliversUnsent(init, k, lens)
  {
    var a: nat :| IsPub(init, a, k);
    var b: nat :| IsSub(init, b, k);
    hide Init, OneToOne, DeliversUnsent, Scenarios.Leads;
    var ms := [Zeros(m), Ones(n)];
    var u, g := Breaks.TearRun(init, k, a, b, ms, 0);
    assert ms[..2] == ms && ms[..1] == [Zeros(m)];
    TornStartsWithZero(init, u, Breaks.ByOne(a, ms), k, b, Zeros(m), g);
    UnsentRun(init, k, lens, u, Breaks.ByOne(a, ms), b, g);
  }

  lemma TornStartsWithZero(init: State, u: State, begun: seq<(nat, Bytes)>, k: nat, b: nat, m: Bytes, g: Bytes)
    requires Init(init) && k < |init.slots| && OneToOne(init, k) && IsSub(init, b, k)
    requires Scenarios.Leads(init, u, begun) && Breaks.Delivered(u, k, b, [m], [g], [0])
    requires |m| >= 8 && |g| >= 8 && AllZero(m)
    ensures g[0] == 0
  {
    hide Init, OneToOne;
    var actions :| Run(init, actions) == Some(u) && Scenarios.Begun(actions) == begun;
    TopicAlways(init, actions, k);
    PlacesStay(init, actions, b, k);
    hide Control, Data, Excluded;
    assert SubOk(u.procs[b], u.slots[k]);
    hide OneToOne, Topic, Run, Reading, Due;
    FirstDelivery(u.procs[b], [m], g);
    hide Matches, SubOk, Received;
    MatchesZeros(g, m);
  }

  lemma FirstDelivery(q: Proc, published: seq<Bytes>, g: Bytes)
    requires Received(q, published) && published != [] && q.got == [g] && q.seen == [0]
    ensures Matches(g, published[0])
  {
    assert q.got[0] == g && q.seen[0] == 0;
  }

  lemma MatchesZeros(g: Bytes, m: Bytes)
    requires Matches(g, m) && AllZero(m) && |m| >= 8 && |g| >= 8
    ensures g[0] == 0
  {
    assert m[0] == 0;
  }

  // ---------------------------------------------------------------- and otherwise cannot

  lemma {:induction false} SendersArePresent(init: State, actions: seq<Action>, k: nat, lens: set<nat>)
    requires Init(init) && Run(init, actions).Some? && TopicMessages(init, actions, k) != []
    requires WithLengths(init, actions, k, lens)
    ensures HasPublisher(init, k) && lens != {}
  {
    hide Init, Apply;
    var front, a := actions[..|actions| - 1], actions[|actions| - 1];
    if TopicMessages(init, front, k) != [] {
      assert WithLengths(init, front, k, lens);
      SendersArePresent(init, front, k, lens);
    } else {
      PlacesStay(init, front, a.i, k);
      assert IsPub(init, a.i, k);
      assert |a.m| in lens;
    }
  }

  /** A delivery is made for a message that was sent on the topic. */
  lemma DeliveriesAreOfSent(init: State, k: nat, lens: set<nat>, actions: seq<Action>, s: State, j: nat, d: nat)
    requires Init(init) && k < |init.slots| && UnsentAt(init, k, lens, actions, s, j, d)
    ensures HasPublisher(init, k) && HasSubscriber(init, k) && lens != {}
    ensures k < |s.slots| && |s.procs[j].got| == |s.procs[j].seen| && 0 <= s.procs[j].seen[d] < |s.slots[k].published|
    ensures s.slots[k].published[s.procs[j].seen[d]] in TopicMessages(init, actions, k)
  {
    hide Init;
    InOrderDelivery(init, actions, s, k, j);
    PublishedWasBegun(init, actions, s, k, s.procs[j].seen[d]);
    SendersArePresent(init, actions, k, lens);
    PlacesStay(init, actions, j, k);
    assert IsSub(init, j, k);
  }

  lemma OneLengthIsWhole(init: State, k: nat, lens: set<nat>, actions: seq<Action>, s: State, j: nat, d: nat)
    requires Init(init) && k < |init.slots| && OneToOne(init, k) && !TwoLengths(lens)
    ensures !UnsentAt(init, k, lens, actions, s, j, d)
  {
    if UnsentAt(init, k, lens, actions, s, j, d) {
      hide Init, OneToOne;
      DeliveriesAreOfSent(init, k, lens, actions, s, j, d);
      var n :| n in lens;
      assert AllOfLength(init, actions, k, n);
      EqualLengthDelivery(init, actions, s, k, j, n);
    }
  }

  // ---------------------------------------------------------------- result

  /** Whatever the initial state and the lengths of the messages on a topic: a subscriber
      of it can be delivered bytes that no publisher of it ever sent exactly if the topic
      has users of both kinds and, having one of each, messages of two lengths, or, having
      more, any messages. */
  lemma UnsentExactly(init: State, k: nat, lens: set<nat>)
    requires Init(init) && k < |init.slots| && forall n | n in lens :: 8 <= n < UINT32
    ensures DeliversUnsent(init, k, lens) <==>
              && HasPublisher(init, k) && HasSubscriber(init, k)
              && if OneToOne(init, k) then TwoLengths(lens) else lens != {}
  {
    hide Init, OneToOne, HasPublisher, HasSubscriber;
    if HasPublisher(init, k) && HasSubscriber(init, k) {
      if OneToOne(init, k) && TwoLengths(lens) {
        var m, n :| m in lens && n in lens && m != n;
        LengthsMix(init, k, lens, m, n);
      } else if !OneToOne(init, k) && lens != {} {
        var n :| n in lens;
        CrowdMixes(init, k, lens, n);
      }
    }
    if DeliversUnsent(init, k, lens) {
      var actions: seq<Action>, s: State, j: nat, d: nat :| UnsentAt(init, k, lens, actions, s, j, d);
      DeliveriesAreOfSent(init, k, lens, actions, s, j, d);
      if OneToOne(init, k) && !TwoLengths(lens) {
        OneLengthIsWhole(init, k, lens, actions, s, j, d);
      }
    }
  }
}
