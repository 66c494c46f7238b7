/** The turns a member of the cast can take on a stage: one routine or half of one. */
module ProtocolTurns {
  import opened Options
  import opened Bytes
  import opened ProtocolModel
  import opened ProtocolSolo
  import opened ProtocolScenarios

  function Waiting(p: Proc): Proc {
    p.(loc := WWait, mode := DataWait)
  }

  function Woken(p: Proc): Proc {
    p.(loc := WWait, mode := DataWoken)
  }

  /** A subscriber that is to connect yet, or has connected to the slot as it is. */
  predicate IsReader(p: Proc, x: Slot) {
    && p.role.Subscriber? && p.loc.Idle? && p.mode.Running?
    && (p.handle.Handle? ==> p.handle == FreshHandle(x))
  }

  function Connected(p: Proc, x: Slot): Proc {
    p.(handle := FreshHandle(x))
  }

  lemma ReplacedTwice(ps: seq<Proc>, who: nat, p: Proc, q: Proc)
    requires who < |ps|
    ensures ps[who := p][who := q] == ps[who := q]
  {
  }

  lemma LooksUp(c: Cast, t: State, ps: seq<Proc>, x: Slot, who: nat) returns (u: State)
    requires CastOk(c) && OnStage(c, t, ps, x, 0) && who < |ps|
    requires var p := ps[who]; p.role.Subscriber? && p.loc.Idle? && p.mode.Running? && p.handle.NoHandle?
    ensures Leads(t, u, []) && OnStage(c, u, ps[who := Connected(ps[who], x)], x, 0)
  {
    var i, p := c.ids[who], ps[who];
    hide Leads, Reaches, OnStage, CastOk;
    var f, q := Goto(p, FLock), Connected(p, x);
    var r := Begins(c, t, ps, x, 0, who, BeginFind(i), f);
    hide Act, CanAct;
    var v := View(f, x, None, 0);
    FindAlone(i, v);
    assert v.(p := Goto(v.p, Idle).(handle := FreshHandle(v.x))) == View(q, x, None, 0);
    u := PlaysQuietly(c, r, ps[who := f], x, 0, who, View(q, x, None, 0));
    LeadsQuietly(t, r, [], u);
    ReplacedTwice(ps, who, f, q);
  }

  /** A subscriber looks its topic up, unless it has. */
  lemma Connects(c: Cast, t: State, ps: seq<Proc>, x: Slot, who: nat) returns (u: State)
    requires CastOk(c) && OnStage(c, t, ps, x, 0) && who < |ps| && IsReader(ps[who], x)
    ensures Leads(t, u, []) && OnStage(c, u, ps[who := Connected(ps[who], x)], x, 0)
  {
    var p := ps[who];
    var q := Connected(p, x);
    if p.handle.NoHandle? {
      u := LooksUp(c, t, ps, x, who);
    } else {
      Stay(t);
      u := t;
      assert ps[who := q] == ps;
    }
  }

  /** It connects and goes to wait for data. */
  lemma ReaderWaits(c: Cast, t: State, ps: seq<Proc>, x: Slot, who: nat) returns (u: State)
    requires CastOk(c) && OnStage(c, t, ps, x, 0) && who < |ps| && IsReader(ps[who], x) && x.owner.None?
    ensures Leads(t, u, []) && OnStage(c, u, ps[who := Waiting(Connected(ps[who], x))], x, 0)
  {
    hide Leads, Reaches, OnStage;
    var q := Connected(ps[who], x);
    var r := Connects(c, t, ps, x, who);
    u := WaitsForData(c, r, ps[who := q], x, who);
    LeadsQuietly(t, r, [], u);
    assert ps[who := q][who := Waiting(q)] == ps[who := Waiting(q)];
  }

  lemma WaitsForData(c: Cast, t: State, ps: seq<Proc>, x: Slot, who: nat) returns (u: State)
    requires CastOk(c) && OnStage(c, t, ps, x, 0) && who < |ps| && x.owner.None?
    requires var p := ps[who]; p.role.Subscriber? && p.loc.Idle? && p.mode.Running? && p.handle.Handle?
    ensures Leads(t, u, []) && OnStage(c, u, ps[who := Waiting(ps[who])], x, 0)
  {
    var i, p := c.ids[who], ps[who];
    hide Leads, Reaches, OnStage, CastOk;
    var w := Goto(p, WLock);
    var r := Begins(c, t, ps, x, 0, who, BeginReceive(i), w);
    hide Act, CanAct;
    var v := View(w, x, None, 0);
    WaitAlone(i, v);
    var q := Waiting(p);
    assert v.(p := v.p.(loc := WWait, mode := DataWait)) == View(q, x, None, 0);
    u := PlaysQuietly(c, r, ps[who := w], x, 0, who, View(q, x, None, 0));
    LeadsQuietly(t, r, [], u);
    ReplacedTwice(ps, who, w, q);
  }

  function PublishedView(p: Proc, x: Slot, m: Bytes): View
    requires StoreOk(x)
  {
    Published(Publishing(View(p, x, None, 0), m))
  }

  /** What a whole publish leaves of a resting publisher and a slot nobody uses. */
  lemma PublishedViewFacts(p: Proc, x: Slot, m: Bytes)
    requires Tidy(x) && IsMessage(m) && Rests(p, x)
    ensures var w := PublishedView(p, x, m); var q, y := w.p, w.x;
      && Tidy(y) && y.desc.size == |m| && y.block.bytes[..|m|] == m && y.published == x.published + [m]
      && y.block.id - y.desc.resizeCount == x.block.id - x.desc.resizeCount
      && y.desc.capacity == (if |m| > x.desc.capacity then |m| else x.desc.capacity)
      && (|m| <= x.desc.capacity ==> FreshHandle(y) == FreshHandle(x))
      && Rests(q, y) && q.handle == FreshHandle(y) && q.role == p.role && q.slot == p.slot
      && w.gowner.None? && w.gclients == 0
  {
    PublishedFacts(Publishing(View(p, x, None, 0), m));
  }

  /** A resting publisher publishes m whole. */
  lemma PublishesWhole(c: Cast, t: State, ps: seq<Proc>, x: Slot, who: nat, m: Bytes) returns (u: State)
    requires CastOk(c) && OnStage(c, t, ps, x, 0) && who < |ps| && Tidy(x)
    requires ps[who].role.Publisher? && Rests(ps[who], x) && IsMessage(m)
    ensures Leads(t, u, [(c.ids[who], m)])
    ensures var w := PublishedView(ps[who], x, m);
      OnStage(c, u, After(ps, who, w.p, c.k, {GlobalCond, DataCond}), w.x, 0)
  {
    var i, p := c.ids[who], ps[who];
    hide Leads, Reaches, OnStage, After, Published, StoreOk;
    var v := Publishing(View(p, x, None, 0), m);
    var r := Begins(c, t, ps, x, 0, who, BeginPublish(i, m), v.p);
    PublishAlone(i, v);
    PublishedFacts(v);
    u := Plays(c, r, ps[who := v.p], x, 0, who, Published(v), {GlobalCond, DataCond});
    LeadsQuietly(t, r, [(i, m)], u);
    AfterReplaced(ps, who, v.p, Published(v).p, c.k, {GlobalCond, DataCond});
  }

  lemma AfterReplaced(ps: seq<Proc>, who: nat, p: Proc, q: Proc, k: nat, signals: set<Cond>)
    requires who < |ps|
    ensures After(ps[who := p], who, q, k, signals) == After(ps, who, q, k, signals)
  {
    var a, b := After(ps[who := p], who, q, k, signals), After(ps, who, q, k, signals);
    forall j | 0 <= j < |ps|
      ensures a[j] == b[j]
    {
    }
  }

  function Announced(p: Proc, x: Slot, m: Bytes): View {
    Reallocated(Publishing(View(p, x, None, 0), m))
  }

  /** What the first half of a publish leaves. */
  lemma AnnouncedFacts(p: Proc, x: Slot, m: Bytes)
    requires Tidy(x) && IsMessage(m) && Rests(p, x)
    ensures var w := Announced(p, x, m); var q, y := w.p, w.x;
      && Tidy(y) && y.desc.size == |m| && y.published == x.published
      && y.block.id - y.desc.resizeCount == x.block.id - x.desc.resizeCount
      && y.desc.capacity == (if |m| > x.desc.capacity then |m| else x.desc.capacity)
      && (|m| <= x.desc.capacity ==> FreshHandle(y) == FreshHandle(x) && y.block == x.block)
      && q.loc.SLock? && q.mode.Running? && q.handle == FreshHandle(y)
      && q.msg == m && q.role == p.role && q.slot == p.slot
      && w.gowner.None? && w.gclients == 0
  {
    ResizedFacts(x, |m|);
  }

  /** A resting publisher sizes the slot for m and stops before it serializes. */
  lemma Announces(c: Cast, t: State, ps: seq<Proc>, x: Slot, who: nat, m: Bytes) returns (u: State)
    requires CastOk(c) && OnStage(c, t, ps, x, 0) && who < |ps| && Tidy(x)
    requires ps[who].role.Publisher? && Rests(ps[who], x) && IsMessage(m)
    ensures Leads(t, u, [(c.ids[who], m)])
    ensures var w := Announced(ps[who], x, m); OnStage(c, u, ps[who := w.p], w.x, 0)
  {
    var i, p := c.ids[who], ps[who];
    hide Leads, Reaches, OnStage, After, CastOk;
    var v := Publishing(View(p, x, None, 0), m);
    var r := Begins(c, t, ps, x, 0, who, BeginPublish(i, m), v.p);
    ReallocateAlone(i, v);
    var w := Reallocated(v);
    u := PlaysQuietly(c, r, ps[who := v.p], x, 0, who, w);
    LeadsQuietly(t, r, [(i, m)], u);
    ReplacedTwice(ps, who, v.p, w.p);
  }

  /** A woken reader registers and reads n bytes. */
  lemma StartsReading(c: Cast, t: State, ps: seq<Proc>, x: Slot, who: nat, n: nat) returns (u: State)
    requires CastOk(c) && OnStage(c, t, ps, x, 0) && who < |ps| && Tidy(x) && n <= x.desc.size
    requires ps[who] == Woken(ps[who]) && InStep(ps[who].handle, x)
    ensures Leads(t, u, [])
    ensures var w := Reading(Entered(View(ps[who], x, None, 0)), n); OnStage(c, u, ps[who := w.p], w.x, 1)
  {
    var i := c.ids[who];
    hide Leads, Reaches, OnStage;
    var v := View(ps[who], x, None, 0);
    RegisterAlone(i, v);
    ReadsSome(i, Entered(v), n);
    var w := Reading(Entered(v), n);
    ThenAfter(i, v, Entered(v), w, {});
    u := PlaysQuietly(c, t, ps, x, 0, who, w);
  }

  /** A woken reader does its whole receive. */
  lemma Receives(c: Cast, t: State, ps: seq<Proc>, x: Slot, who: nat) returns (u: State)
    requires CastOk(c) && OnStage(c, t, ps, x, 0) && who < |ps| && Tidy(x)
    requires ps[who] == Woken(ps[who]) && InStep(ps[who].handle, x)
    ensures Leads(t, u, [])
    ensures var w := Received(Entered(View(ps[who], x, None, 0)));
      OnStage(c, u, After(ps, who, w.p, c.k, {GlobalCond, LockCond}), w.x, 0)
  {
    var i := c.ids[who];
    hide Leads, Reaches, OnStage, After;
    var v := View(ps[who], x, None, 0);
    RegisterAlone(i, v);
    ReceiveAlone(i, Entered(v));
    var w := Received(Entered(v));
    ThenAfter(i, v, Entered(v), w, {GlobalCond, LockCond});
    u := Plays(c, t, ps, x, 0, who, w, {GlobalCond, LockCond});
  }

  /** A reader that is reading finishes. */
  lemma FinishesReading(c: Cast, t: State, ps: seq<Proc>, x: Slot, who: nat, q: Proc) returns (u: State)
    requires CastOk(c) && who < |ps| && Tidy(x)
    requires q == Woken(q) && InStep(q.handle, x) && ps[who] == Entered(View(q, x, None, 0)).p
    requires OnStage(c, t, ps, Entered(View(q, x, None, 0)).x, 1)
    ensures Leads(t, u, [])
    ensures var w := Received(Entered(View(q, x, None, 0)));
      OnStage(c, u, After(ps, who, w.p, c.k, {GlobalCond, LockCond}), x, 0)
  {
    var i, v := c.ids[who], Entered(View(q, x, None, 0));
    hide Leads, Reaches, OnStage, After;
    ReceiveAlone(i, v);
    var w := Received(v);
    assert w.x == x;
    u := Plays(c, t, ps, v.x, 1, who, w, {GlobalCond, LockCond});
  }

  /** A woken reader registers and stops at the beginning of its body. */
  lemma Registers(c: Cast, t: State, ps: seq<Proc>, x: Slot, who: nat) returns (u: State)
    requires CastOk(c) && OnStage(c, t, ps, x, 0) && who < |ps| && Tidy(x) && ps[who] == Woken(ps[who])
    ensures Leads(t, u, [])
    ensures var w := Entered(View(ps[who], x, None, 0)); OnStage(c, u, ps[who := w.p], w.x, 1)
  {
    var i, v := c.ids[who], View(ps[who], x, None, 0);
    hide Leads, Reaches, OnStage;
    RegisterAlone(i, v);
    u := PlaysQuietly(c, t, ps, x, 0, who, Entered(v));
  }
}
