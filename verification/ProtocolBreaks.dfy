/** Runs that break delivery or progress on a topic whose users do not meet the condition
    of the corresponding result, from any initial state. */
module ProtocolBreaks {
  import opened Options
  import opened Bytes
  import opened ProtocolModel
  import opened ProtocolSolo
  import opened ProtocolScenarios
  import opened ProtocolTurns
  import Control = ProtocolControl
  import Liveness = ProtocolLiveness

  // ---------------------------------------------------------------- an initial state as a stage

  lemma Opens(s: State, k: nat, ids: seq<nat>) returns (c: Cast, ps: seq<Proc>)
    requires Init(s) && k < |s.slots|
    requires forall j | 0 <= j < |ids| :: ids[j] < |s.procs| && s.procs[ids[j]].slot == k
    requires forall i, j | 0 <= i < j < |ids| :: ids[i] != ids[j]
    ensures c == Cast(s, k, ids) && CastOk(c)
    ensures |ps| == |ids| && forall j | 0 <= j < |ids| :: ps[j] == s.procs[ids[j]]
    ensures OnStage(c, s, ps, s.slots[k], 0)
    ensures Tidy(s.slots[k]) && s.slots[k].published == []
  {
    c := Cast(s, k, ids);
    ps := seq(|ids|, j requires 0 <= j < |ids| => s.procs[ids[j]]);
    assert InitSlot(s.slots[k]);
    forall z | 0 <= z < |s.procs|
      ensures s.procs[z].mode.Running?
    {
      assert InitProc(s, s.procs[z]);
    }
  }

  /** How a process begins. */
  lemma Beginner(s: State, z: nat)
    requires Init(s) && z < |s.procs|
    ensures s.procs[z].slot < |s.slots|
    ensures var p, x := s.procs[z], s.slots[s.procs[z].slot];
      && p.got == [] && p.seen == [] && p.mode.Running?
      && (p.role.Publisher? ==> Rests(p, x)) && (p.role.Subscriber? ==> IsReader(p, x))
  {
    assert InitProc(s, s.procs[z]);
  }

  lemma OpensPair(s: State, k: nat, a: nat, b: nat) returns (c: Cast)
    requires Init(s) && k < |s.slots| && a < |s.procs| && b < |s.procs| && a != b
    requires s.procs[a].slot == s.procs[b].slot == k
    ensures c == Cast(s, k, [a, b]) && CastOk(c) && Tidy(s.slots[k]) && s.slots[k].published == []
    ensures OnStage(c, s, [s.procs[a], s.procs[b]], s.slots[k], 0)
  {
    var ps;
    c, ps := Opens(s, k, [a, b]);
    assert ps == [s.procs[a], s.procs[b]];
  }

  lemma OpensTrio(s: State, k: nat, a: nat, b: nat, d: nat) returns (c: Cast)
    requires Init(s) && k < |s.slots| && a < |s.procs| && b < |s.procs| && d < |s.procs|
    requires a != b && a != d && b != d
    requires s.procs[a].slot == s.procs[b].slot == s.procs[d].slot == k
    ensures c == Cast(s, k, [a, b, d]) && CastOk(c) && Tidy(s.slots[k]) && s.slots[k].published == []
    ensures OnStage(c, s, [s.procs[a], s.procs[b], s.procs[d]], s.slots[k], 0)
  {
    var ps;
    c, ps := Opens(s, k, [a, b, d]);
    assert ps == [s.procs[a], s.procs[b], s.procs[d]];
  }

  lemma OneOfTwo(p: Proc, q: Proc, r: Proc)
    ensures [p, q][0 := r] == [r, q] && [p, q][1 := r] == [p, r]
  {
  }

  lemma OneOfThree(p: Proc, q: Proc, z: Proc, r: Proc)
    ensures [p, q, z][0 := r] == [r, q, z] && [p, q, z][1 := r] == [p, r, z] && [p, q, z][2 := r] == [p, q, r]
  {
  }

  // ---------------------------------------------------------------- overruns and deadlock

  /** One publisher sizes the slot for m, another publishes the shorter n whole, and the
      first runs out of its stream. */
  lemma SecondPublisherOverruns(c: Cast, s: State, p0: Proc, q0: Proc, x: Slot, m: Bytes, n: Bytes)
    returns (u: State, p: Proc, q: Proc, y: Slot)
    requires CastOk(c) && |c.ids| == 2 && OnStage(c, s, [p0, q0], x, 0) && Tidy(x)
    requires p0.role.Publisher? && Rests(p0, x) && q0.role.Publisher? && Rests(q0, x)
    requires IsMessage(m) && IsMessage(n) && |m| > |n|
    ensures Leads(s, u, [(c.ids[0], m)] + [(c.ids[1], n)])
    ensures OnStage(c, u, [p, q], y, 1) && At(View(p, y, None, 1), Thrown)
    ensures Tidy(y) && q.role.Publisher? && Rests(q, y) && q.handle == FreshHandle(y)
    ensures y.desc.capacity == (if |m| > x.desc.capacity then |m| else x.desc.capacity)
  {
    var i, j := c.ids[0], c.ids[1];
    AnnouncedFacts(p0, x, m);
    hide Leads, OnStage, Announced, CastOk, Tidy, IsMessage, Rests;
    var v := Announced(p0, x, m);
    RestsOn(q0, x, v.x);
    var t := Announces(c, s, [p0, q0], x, 0, m);
    OneOfTwo(p0, q0, v.p);
    var r, w, z := SecondPublishes(c, t, v.p, q0, v.x, n);
    LeadsOn(s, t, [(i, m)], r, [(j, n)]);
    u, p, q, y := FirstOverruns(c, r, v.p, w, z);
    LeadsQuietly(s, r, [(i, m)] + [(j, n)], u);
  }

  lemma RestsOn(p: Proc, x: Slot, y: Slot)
    requires Rests(p, x) && y.block.id - y.desc.resizeCount == x.block.id - x.desc.resizeCount
    ensures Rests(p, y)
  {
  }

  lemma SecondPublishes(c: Cast, t: State, p: Proc, q: Proc, x: Slot, n: Bytes) returns (r: State, q': Proc, y: Slot)
    requires CastOk(c) && |c.ids| == 2 && OnStage(c, t, [p, q], x, 0) && Tidy(x)
    requires p.mode.Running? && q.role.Publisher? && Rests(q, x) && IsMessage(n) && |n| < x.desc.size
    ensures Leads(t, r, [(c.ids[1], n)]) && OnStage(c, r, [p, q'], y, 0)
    ensures Tidy(y) && y.desc.size == |n| && y.desc.capacity == x.desc.capacity && FreshHandle(y) == FreshHandle(x)
    ensures q'.role.Publisher? && Rests(q', y) && q'.handle == FreshHandle(y)
  {
    PublishedViewFacts(q, x, n);
    var w := PublishedView(q, x, n);
    OnlyTwo([p, q], w.p, c.k);
    hide Leads, OnStage, After, PublishedView, CastOk;
    r := PublishesWhole(c, t, [p, q], x, 1, n);
    q', y := w.p, w.x;
  }

  lemma FirstOverruns(c: Cast, r: State, p: Proc, q: Proc, x: Slot) returns (u: State, p': Proc, q': Proc, y: Slot)
    requires CastOk(c) && |c.ids| == 2 && OnStage(c, r, [p, q], x, 0) && Tidy(x)
    requires At(View(p, x, None, 0), SLock) && IsMessage(p.msg) && p.handle == FreshHandle(x) && x.desc.size < |p.msg|
    requires q.role.Publisher? && Rests(q, x) && q.handle == FreshHandle(x)
    ensures Leads(r, u, [])
    ensures OnStage(c, u, [p', q'], y, 1) && At(View(p', y, None, 1), Thrown)
    ensures Tidy(y) && q'.role.Publisher? && Rests(q', y) && q'.handle == FreshHandle(y)
    ensures y.desc.capacity == x.desc.capacity
  {
    var i := c.ids[0];
    hide Leads, Reaches, OnStage;
    var z := View(p, x, None, 0);
    OverrunAlone(i, z);
    p', q', y := Overran(z).p, q, Overran(z).x;
    u := PlaysQuietly(c, r, [p, q], x, 0, 0, Overran(z));
    OneOfTwo(p, q, p');
  }

  lemma OnlyTwo(ps: seq<Proc>, q: Proc, k: nat)
    requires |ps| == 2 && ps[0].mode.Running?
    ensures After(ps, 1, q, k, {GlobalCond, DataCond}) == [ps[0], q]
  {
  }

  lemma OverrunRun(init: State, k: nat, a: nat, b: nat, m: Bytes, n: Bytes)
    returns (c: Cast, u: State, p: Proc, q: Proc, y: Slot)
    requires Init(init) && k < |init.slots| && a < |init.procs| && b < |init.procs| && a != b
    requires init.procs[a].slot == init.procs[b].slot == k
    requires init.procs[a].role.Publisher? && init.procs[b].role.Publisher?
    requires IsMessage(m) && IsMessage(n) && |m| > |n|
    ensures c == Cast(init, k, [a, b]) && CastOk(c) && Leads(init, u, [(a, m)] + [(b, n)])
    ensures OnStage(c, u, [p, q], y, 1) && At(View(p, y, None, 1), Thrown)
    ensures a < |u.procs| && u.procs[a].loc.Thrown?
    ensures Tidy(y) && q.role.Publisher? && Rests(q, y) && q.handle == FreshHandle(y)
    ensures var x := init.slots[k]; y.desc.capacity == (if |m| > x.desc.capacity then |m| else x.desc.capacity)
  {
    Beginner(init, a);
    Beginner(init, b);
    c := OpensPair(init, k, a, b);
    hide Init, Leads, OnStage, StoreOk, CastOk;
    u, p, q, y := SecondPublisherOverruns(c, init, init.procs[a], init.procs[b], init.slots[k], m, n);
    FirstOnStage(c, u, p, q, y);
  }

  lemma FirstOnStage(c: Cast, u: State, p: Proc, q: Proc, y: Slot)
    requires CastOk(c) && |c.ids| == 2 && OnStage(c, u, [p, q], y, 1)
    ensures c.ids[0] < |u.procs| && u.procs[c.ids[0]] == p
  {
    assert [p, q][0] == p;
  }

  /** Between routines, or out of one by an overrun. */
  predicate Halted(p: Proc) {
    (p.loc.Idle? || p.loc.Thrown?) && p.mode.Running?
  }

  ghost predicate AllHalted(s: State) {
    s.gowner.None? && forall j | 0 <= j < |s.procs| :: Halted(s.procs[j])
  }

  lemma HaltedOnStage(c: Cast, s: State, p: Proc, q: Proc, y: Slot)
    requires Init(c.s) && |c.ids| == 2 && OnStage(c, s, [p, q], y, 1) && Halted(p) && Halted(q)
    ensures AllHalted(s)
  {
    forall j | 0 <= j < |s.procs|
      ensures Halted(s.procs[j])
    {
      if j in c.ids {
        assert s.procs[j] == if j == c.ids[0] then [p, q][0] else [p, q][1];
      } else {
        assert s.procs[j] == c.s.procs[j] && InitProc(c.s, c.s.procs[j]);
      }
    }
  }

  /** A process that begins a routine and comes to wait for the global clients, when one
      never leaves and nobody else is at work. */
  lemma WaitsForever(s: State, a: Action, v: View, w: View) returns (u: State)
    requires AllHalted(s) && Enabled(s, a) && Act(ViewOf(s, a.i), a) == Effect(v, None)
    requires v.p.slot == s.procs[a.i].slot && Reaches(a.i, v, w, {})
    requires !w.p.loc.Idle? && !w.p.loc.Thrown? && w.p.mode.GlobalWait?
    ensures Leads(s, u, BegunBy(a)) && Liveness.SomeBusy(u) && !Liveness.CanProceed(u)
  {
    hide Leads, Act, Alone;
    BeginIsPlayed(s, a, v);
    PlayedTwice(s, a.i, v, {}, w, {});
    var none: set<Cond> := {};
    assert none + none == none;
    var t := Played(s, a.i, v, {});
    var n :| Alone(a.i, v, n) == Some(Ran(w, {}));
    AloneIsRun(t, a.i, n);
    u := Played(s, a.i, w, {});
    LeadsQuietly(s, t, BegunBy(a), u);
    assert Liveness.Busy(u.procs[a.i]);
    assert forall j | 0 <= j < |u.procs| && j != a.i :: u.procs[j] == s.procs[j];
  }

  /** A publisher with a message longer than its block. */
  lemma GrowingWaitsForever(s: State, i: nat, m: Bytes) returns (u: State)
    requires AllHalted(s) && s.gclients != 0 && ValidProc(s, i)
    requires var p, x := s.procs[i], s.slots[s.procs[i].slot];
      p.role.Publisher? && p.loc.Idle? && p.handle == FreshHandle(x) && Tidy(x) && |m| > x.desc.capacity
    requires IsMessage(m)
    ensures Leads(s, u, [(i, m)]) && Liveness.SomeBusy(u) && !Liveness.CanProceed(u)
  {
    hide Leads, Reaches;
    var v := Publishing(ViewOf(s, i), m);
    var w := Locked(i, v, RCheckG2).(p := v.p.(loc := RCheckG2, mode := GlobalWait));
    GrowWaits(i, v);
    u := WaitsForever(s, BeginPublish(i, m), v, w);
  }

  /** A subscriber without a handle. */
  lemma FindingWaitsForever(s: State, i: nat) returns (u: State)
    requires AllHalted(s) && s.gclients != 0 && ValidProc(s, i)
    requires s.procs[i].role.Subscriber? && s.procs[i].loc.Idle? && s.procs[i].handle.NoHandle?
    ensures Leads(s, u, []) && Liveness.SomeBusy(u) && !Liveness.CanProceed(u)
  {
    hide Leads, Reaches;
    var v := ViewOf(s, i).(p := Goto(s.procs[i], FLock));
    FindWaits(i, v);
    u := WaitsForever(s, BeginFind(i), v, v.(p := v.p.(loc := FCheck, mode := GlobalWait)));
  }

  // ---------------------------------------------------------------- a torn delivery

  function ByOne(i: nat, ms: seq<Bytes>): (r: seq<(nat, Bytes)>)
    ensures |r| == |ms| && forall c | 0 <= c < |ms| :: r[c] == (i, ms[c])
  {
    seq(|ms|, c requires 0 <= c < |ms| => (i, ms[c]))
  }

  /** A subscriber that waits for data, or has been notified since. */
  predicate Expects(q: Proc) {
    q == Waiting(q) || q == Woken(q)
  }

  /** The publisher publishes a list of messages; the subscriber is notified and does not
      get the mutex. */
  lemma PublishesList(c: Cast, t: State, p: Proc, q: Proc, x: Slot, ms: seq<Bytes>)
    returns (u: State, p': Proc, q': Proc, y: Slot)
    requires CastOk(c) && |c.ids| == 2 && OnStage(c, t, [p, q], x, 0) && Tidy(x)
    requires p.role.Publisher? && Rests(p, x) && Expects(q) && forall d | 0 <= d < |ms| :: IsMessage(ms[d])
    ensures Leads(t, u, ByOne(c.ids[0], ms)) && OnStage(c, u, [p', q'], y, 0)
    ensures Tidy(y) && y.published == x.published + ms
    ensures y.block.id - y.desc.resizeCount == x.block.id - x.desc.resizeCount
    ensures p'.role.Publisher? && Rests(p', y)
    ensures q' == if ms == [] then q else Woken(q)
  {
    var i := c.ids[0];
    assert |ByOne(i, [])| == 0;
    hide Leads, OnStage, CastOk, Rests, Tidy, IsMessage, ByOne;
    if ms == [] {
      Stay(t);
      assert x.published + [] == x.published;
      u, p', q', y := t, p, q, x;
      assert ByOne(i, ms) == [];
    } else {
      var front, m := ms[..|ms| - 1], ms[|ms| - 1];
      var r, pr, qr, z := PublishesList(c, t, p, q, x, front);
      u, p', y := PublishesOne(c, r, pr, qr, z, m);
      q' := Woken(q);
      LeadsOn(t, r, ByOne(i, front), u, [(i, m)]);
      ByOneMore(i, front, m, x.published);
      assert ms == front + [m];
    }
  }

  lemma ByOneMore(i: nat, ms: seq<Bytes>, m: Bytes, before: seq<Bytes>)
    ensures ByOne(i, ms) + [(i, m)] == ByOne(i, ms + [m])
    ensures before + ms + [m] == before + (ms + [m])
  {
  }

  lemma PublishesOne(c: Cast, r: State, p: Proc, q: Proc, x: Slot, m: Bytes) returns (u: State, p': Proc, y: Slot)
    requires CastOk(c) && |c.ids| == 2 && OnStage(c, r, [p, q], x, 0) && Tidy(x)
    requires p.role.Publisher? && Rests(p, x) && Expects(q) && IsMessage(m)
    ensures Leads(r, u, [(c.ids[0], m)]) && OnStage(c, u, [p', Woken(q)], y, 0)
    ensures Tidy(y) && y.published == x.published + [m]
    ensures y.block.id - y.desc.resizeCount == x.block.id - x.desc.resizeCount
    ensures p'.role.Publisher? && Rests(p', y)
  {
    var w := PublishedView(p, x, m);
    ReaderIsWoken(c, r, p, q, x, w.p);
    hide Leads, OnStage, After, PublishedView, CastOk;
    PublishedViewFacts(p, x, m);
    u := PublishesWhole(c, r, [p, q], x, 0, m);
    p', y := w.p, w.x;
  }

  lemma ReaderIsWoken(c: Cast, r: State, p: Proc, q: Proc, x: Slot, p': Proc)
    requires CastOk(c) && |c.ids| == 2 && OnStage(c, r, [p, q], x, 0) && Expects(q)
    ensures After([p, q], 0, p', c.k, {GlobalCond, DataCond}) == [p', Woken(q)]
  {
    assert [p, q][1].slot == c.k;
    assert WokenBy(q, c.k, {GlobalCond, DataCond}) == Woken(q);
  }

  /** What has been published on slot k, and what process j was delivered for which message. */
  ghost predicate Delivered(u: State, k: nat, j: nat, published: seq<Bytes>, got: seq<Bytes>, seen: seq<int>) {
    && j < |u.procs| && k < |u.slots| && u.slots[k].published == published
    && u.procs[j].got == got && u.procs[j].seen == seen
  }

  /** A notified subscriber that gets the mutex between the two halves of the publish of n
      delivers as many bytes as n has, for the message published before. */
  lemma TearOnStage(c: Cast, t: State, p: Proc, q: Proc, x: Slot, n: Bytes) returns (u: State, g: Bytes)
    requires CastOk(c) && |c.ids| == 2 && OnStage(c, t, [p, q], x, 0) && Tidy(x)
    requires p.role.Publisher? && Rests(p, x) && q == Woken(q) && InStep(q.handle, x) && IsMessage(n)
    ensures Leads(t, u, [(c.ids[0], n)]) && |g| == |n|
    ensures Delivered(u, c.k, c.ids[1], x.published, q.got + [g], q.seen + [|x.published| - 1])
  {
    var i := c.ids[0];
    AnnouncedFacts(p, x, n);
    hide Leads, Announced;
    var w := Announced(p, x, n);
    var r := Announces(c, t, [p, q], x, 0, n);
    OneOfTwo(p, q, w.p);
    u := Receives(c, r, [w.p, q], w.x, 1);
    LeadsQuietly(t, r, [(i, n)], u);
    g := w.x.block.bytes[..w.x.desc.size];
    assert u.procs[c.ids[1]] == Received(Entered(View(q, w.x, None, 0))).p;
  }

  /** Two messages of different lengths that follow each other in the list of a topic's
      publisher can be mixed up by its subscriber. */
  lemma TearRun(init: State, k: nat, a: nat, b: nat, ms: seq<Bytes>, c: nat) returns (u: State, g: Bytes)
    requires Init(init) && k < |init.slots| && a < |init.procs| && b < |init.procs|
    requires init.procs[a].slot == init.procs[b].slot == k
    requires init.procs[a].role.Publisher? && init.procs[b].role.Subscriber?
    requires c + 1 < |ms| && forall d | 0 <= d < |ms| :: IsMessage(ms[d])
    ensures Leads(init, u, ByOne(a, ms[..c + 2])) && |g| == |ms[c + 1]|
    ensures Delivered(u, k, b, ms[..c + 1], [g], [c])
  {
    Beginner(init, a);
    Beginner(init, b);
    var cast := OpensPair(init, k, a, b);
    var x, p, q := init.slots[k], init.procs[a], init.procs[b];
    hide Init, Leads, OnStage, StoreOk, CastOk, IsReader, Rests, InStep, Delivered, IsMessage, ByOne;
    var w := Waiting(Connected(q, x));
    ConnectedInStep(q, x);
    var r := ReaderWaits(cast, init, [p, q], x, 1);
    OneOfTwo(p, q, w);
    u, g := TearsFromWait(cast, r, p, w, x, ms, c);
    FromNothing(ms[..c + 1], g, c);
    LeadsQuietlyFrom(init, r, u, ByOne(a, ms[..c + 2]));
  }

  lemma FromNothing(ms: seq<Bytes>, g: Bytes, c: nat)
    ensures [] + ms == ms && [] + [g] == [g] && [] + [c] == [c]
  {
  }

  lemma ConnectedInStep(q: Proc, x: Slot)
    ensures InStep(Connected(q, x).handle, x)
  {
  }

  lemma TearsFromWait(cast: Cast, r: State, p: Proc, q: Proc, x: Slot, ms: seq<Bytes>, c: nat)
    returns (u: State, g: Bytes)
    requires CastOk(cast) && |cast.ids| == 2 && OnStage(cast, r, [p, q], x, 0) && Tidy(x)
    requires p.role.Publisher? && Rests(p, x) && q == Waiting(q) && InStep(q.handle, x)
    requires c + 1 < |ms| && forall d | 0 <= d < |ms| :: IsMessage(ms[d])
    ensures Leads(r, u, ByOne(cast.ids[0], ms[..c + 2])) && |g| == |ms[c + 1]|
    ensures Delivered(u, cast.k, cast.ids[1], x.published + ms[..c + 1], q.got + [g], q.seen + [|x.published| + c])
  {
    var a := cast.ids[0];
    hide Leads, OnStage, StoreOk, CastOk, Tidy, IsMessage, Rests, ByOne, Delivered;
    var front, n := ms[..c + 1], ms[c + 1];
    var s, p', q', y := PublishesList(cast, r, p, q, x, front);
    u, g := TearOnStage(cast, s, p', q', y, n);
    LeadsOn(r, s, ByOne(a, front), u, [(a, n)]);
    ByOneMore(a, front, n, []);
    assert ms[..c + 2] == front + [n];
  }

  lemma LeadsQuietlyFrom(s: State, t: State, u: State, begun: seq<(nat, Bytes)>)
    requires Leads(s, t, []) && Leads(t, u, begun)
    ensures Leads(s, u, begun)
  {
    LeadsOn(s, t, [], u, begun);
    assert [] + begun == begun;
  }
}
