/** Runs of the step model put together from stretches in which one process does a whole
    routine, or a part of one, while the others stay where they are. They start from any
    initial state and give the processes on one topic; all others rest. */
module ProtocolScenarios {
  import opened Options
  import opened Bytes
  import opened ProtocolModel
  import opened ProtocolSolo

  // ---------------------------------------------------------------- runs in parts

  /** The publishes begun, each with its process. */
  function Begun(actions: seq<Action>): seq<(nat, Bytes)> {
    if actions == [] then [] else
    Begun(actions[..|actions| - 1]) + BegunBy(actions[|actions| - 1])
  }

  function BegunBy(a: Action): seq<(nat, Bytes)> {
    if a.BeginPublish? then [(a.i, a.m)] else []
  }

  lemma {:induction false} BegunTwice(first: seq<Action>, second: seq<Action>)
    ensures Begun(first + second) == Begun(first) + Begun(second)
    decreases |second|
  {
    if second == [] {
      assert first + second == first;
    } else {
      var front := second[..|second| - 1];
      var all, last := first + second, BegunBy(second[|second| - 1]);
      hide BegunBy;
      BegunTwice(first, front);
      assert all[..|all| - 1] == first + front && all[|all| - 1] == second[|second| - 1];
      assert Begun(first) + Begun(front) + last == Begun(first) + (Begun(front) + last);
    }
  }

  /** Some run leads from s to t in which exactly these publishes begin. */
  ghost predicate Leads(s: State, t: State, begun: seq<(nat, Bytes)>) {
    exists actions :: Run(s, actions) == Some(t) && Begun(actions) == begun
  }

  lemma LeadsOn(s: State, t: State, begun: seq<(nat, Bytes)>, u: State, more: seq<(nat, Bytes)>)
    requires Leads(s, t, begun) && Leads(t, u, more)
    ensures Leads(s, u, begun + more)
  {
    var first :| Run(s, first) == Some(t) && Begun(first) == begun;
    var second :| Run(t, second) == Some(u) && Begun(second) == more;
    RunTwice(s, first, t, second);
    BegunTwice(first, second);
  }

  /** On to u without another publish beginning. */
  lemma LeadsQuietly(s: State, t: State, begun: seq<(nat, Bytes)>, u: State)
    requires Leads(s, t, begun) && Leads(t, u, [])
    ensures Leads(s, u, begun)
  {
    LeadsOn(s, t, begun, u, []);
    assert begun + [] == begun;
  }

  lemma Stay(s: State)
    ensures Leads(s, s, [])
  {
    assert Run(s, []) == Some(s);
  }

  lemma OneAction(s: State, a: Action)
    requires Enabled(s, a)
    ensures Leads(s, Apply(s, a), BegunBy(a))
  {
    hide Enabled, Apply;
    assert [a][..0] == [];
    assert Run(s, [a][..0]) == Some(s);
    assert Run(s, [a]) == Some(Apply(s, a));
    assert Begun([a]) == Begun([a][..0]) + BegunBy(a);
  }

  /** A process after the notifications of another one's steps. */
  function WokenBy(p: Proc, k: nat, signals: set<Cond>): Proc {
    if p.mode.LockWait? && p.slot == k && LockCond in signals then p.(mode := LockWoken)
    else if p.mode.DataWait? && p.slot == k && DataCond in signals then p.(mode := DataWoken)
    else if p.mode.GlobalWait? && GlobalCond in signals then p.(mode := GlobalWoken)
    else p
  }

  /** The state in which process i has got to the view w. */
  function Played(s: State, i: nat, w: View, signals: set<Cond>): State
    requires ValidProc(s, i)
  {
    var k := s.procs[i].slot;
    State(seq(|s.procs|, j requires 0 <= j < |s.procs| => if j == i then w.p else WokenBy(s.procs[j], k, signals)),
          s.slots[k := w.x], w.gowner, w.gclients)
  }

  lemma StepIsPlayed(s: State, i: nat)
    requires Enabled(s, Step(i))
    ensures var e := Act(ViewOf(s, i), Step(i));
            Apply(s, Step(i)) == Played(s, i, e.v, Signals(e.signal)) && e.v.p.slot == s.procs[i].slot
  {
    var e := Act(ViewOf(s, i), Step(i));
    var t, u := Apply(s, Step(i)), Played(s, i, e.v, Signals(e.signal));
    assert e.signal.Some? ==> e.v.p.mode.Running?;
    assert t.procs == u.procs;
  }

  lemma PlayedTwice(s: State, i: nat, w: View, a: set<Cond>, u: View, b: set<Cond>)
    requires ValidProc(s, i) && w.p.slot == s.procs[i].slot
    ensures ValidProc(Played(s, i, w, a), i) && ViewOf(Played(s, i, w, a), i) == w
    ensures Played(Played(s, i, w, a), i, u, b) == Played(s, i, u, a + b)
  {
    var k := s.procs[i].slot;
    var x, y := Played(Played(s, i, w, a), i, u, b), Played(s, i, u, a + b);
    assert x.slots == y.slots;
    forall j | 0 <= j < |s.procs|
      ensures x.procs[j] == y.procs[j]
    {
    }
  }

  lemma {:induction false} AloneIsRun(s: State, i: nat, n: nat)
    requires ValidProc(s, i) && Alone(i, ViewOf(s, i), n).Some?
    ensures var r := Alone(i, ViewOf(s, i), n).value;
            r.v.p.slot == s.procs[i].slot && Leads(s, Played(s, i, r.v, r.signals), [])
  {
    hide Act, CanStep, Leads, WokenBy;
    if n == 0 {
      Unplayed(s, i);
    } else {
      AloneIsRun(s, i, n - 1);
      var r := Alone(i, ViewOf(s, i), n - 1).value;
      var t := Played(s, i, r.v, r.signals);
      var e := Act(r.v, Step(i));
      PlayedTwice(s, i, r.v, r.signals, e.v, Signals(e.signal));
      StepIsPlayed(t, i);
      OneAction(t, Step(i));
      LeadsQuietly(s, t, [], Apply(t, Step(i)));
    }
  }

  lemma Unplayed(s: State, i: nat)
    requires ValidProc(s, i)
    ensures Leads(s, Played(s, i, ViewOf(s, i), {}), [])
  {
    Stay(s);
    assert Played(s, i, ViewOf(s, i), {}) == s;
  }

  /** Beginning a routine: the process's own view changes, nobody is woken. */
  lemma BeginIsPlayed(s: State, a: Action, w: View)
    requires Enabled(s, a) && Act(ViewOf(s, a.i), a) == Effect(w, None) && w.p.slot == s.procs[a.i].slot
    ensures Leads(s, Played(s, a.i, w, {}), BegunBy(a))
  {
    OneAction(s, a);
    hide Leads, Act, CanAct;
    assert Apply(s, a).procs == Played(s, a.i, w, {}).procs;
  }

  function Publishing(v: View, m: Bytes): View {
    v.(p := Goto(v.p, RLock).(msg := m))
  }

  /** Whenever no mutex is held and no client registered, a publisher can carry its whole
      publish through, whatever the message's length and however old its handle. */
  lemma PublishRuns(s: State, i: nat, m: Bytes)
    requires ValidProc(s, i) && Enabled(s, BeginPublish(i, m))
    requires var v := ViewOf(s, i); Unlocked(v) && NoClients(v) && Detectable(v) && StoreOk(v.x)
    ensures Leads(s, Played(s, i, Published(Publishing(ViewOf(s, i), m)), {GlobalCond, DataCond}), [(i, m)])
  {
    hide Reaches, Leads, Published, Alone;
    var w := Publishing(ViewOf(s, i), m);
    var signals := {GlobalCond, DataCond};
    BeginIsPlayed(s, BeginPublish(i, m), w);
    PublishAlone(i, w);
    PlayedTwice(s, i, w, {}, Published(w), signals);
    assert {} + signals == signals;
    var t := Played(s, i, w, {});
    var n :| Alone(i, w, n) == Some(Ran(Published(w), signals)) by {
      Witness(i, w, Published(w), signals);
    }
    AloneIsRun(t, i, n);
    LeadsQuietly(s, t, [(i, m)], Played(t, i, Published(w), signals));
  }

  lemma Witness(i: nat, v: View, w: View, signals: set<Cond>)
    requires Reaches(i, v, w, signals)
    ensures exists n :: Alone(i, v, n) == Some(Ran(w, signals))
  {
  }

  // ---------------------------------------------------------------- the stage

  /** Some processes of one slot, in an initial state. */
  datatype Cast = Cast(s: State, k: nat, ids: seq<nat>)

  predicate CastOk(c: Cast) {
    && c.k < |c.s.slots|
    && (forall z | 0 <= z < |c.s.procs| :: c.s.procs[z].mode.Running?)
    && (forall j | 0 <= j < |c.ids| :: c.ids[j] < |c.s.procs| && c.s.procs[c.ids[j]].slot == c.k)
    && (forall i, j | 0 <= i < j < |c.ids| :: c.ids[i] != c.ids[j])
  }

  /** The cast are ps, their slot is x, g clients are registered globally, and all else
      is as in the initial state. */
  ghost predicate OnStage(c: Cast, t: State, ps: seq<Proc>, x: Slot, g: int) {
    && |ps| == |c.ids| && |t.procs| == |c.s.procs|
    && (forall j | 0 <= j < |ps| && c.ids[j] < |t.procs| :: t.procs[c.ids[j]] == ps[j] && ps[j].slot == c.k)
    && (forall z | 0 <= z < |t.procs| && z !in c.ids :: t.procs[z] == c.s.procs[z])
    && c.k < |c.s.slots| && t.slots == c.s.slots[c.k := x]
    && t.gowner.None? && t.gclients == g
  }

  /** The cast after a stretch of member `who`. */
  function After(ps: seq<Proc>, who: nat, p: Proc, k: nat, signals: set<Cond>): (qs: seq<Proc>)
    ensures |qs| == |ps|
    ensures forall j | 0 <= j < |ps| :: qs[j] == if j == who then p else WokenBy(ps[j], k, signals)
  {
    seq(|ps|, j requires 0 <= j < |ps| => if j == who then p else WokenBy(ps[j], k, signals))
  }

  lemma ViewOnStage(c: Cast, t: State, ps: seq<Proc>, x: Slot, g: int, who: nat)
    requires CastOk(c) && OnStage(c, t, ps, x, g) && who < |ps|
    ensures ValidProc(t, c.ids[who]) && ViewOf(t, c.ids[who]) == View(ps[who], x, None, g)
  {
  }

  lemma StillOnStage(c: Cast, t: State, ps: seq<Proc>, x: Slot, g: int, who: nat, w: View, signals: set<Cond>)
    requires CastOk(c) && OnStage(c, t, ps, x, g) && who < |ps| && w.p.slot == c.k && w.gowner.None?
    ensures ValidProc(t, c.ids[who])
    ensures OnStage(c, Played(t, c.ids[who], w, signals), After(ps, who, w.p, c.k, signals), w.x, w.gclients)
  {
    ViewOnStage(c, t, ps, x, g, who);
    var u, qs := Played(t, c.ids[who], w, signals), After(ps, who, w.p, c.k, signals);
    forall j | 0 <= j < |qs|
      ensures u.procs[c.ids[j]] == qs[j] && qs[j].slot == c.k
    {
      assert t.procs[c.ids[j]] == ps[j];
    }
  }

  /** A stretch of steps of member `who`. */
  lemma Plays(c: Cast, t: State, ps: seq<Proc>, x: Slot, g: int, who: nat, w: View, signals: set<Cond>)
    returns (u: State)
    requires CastOk(c) && OnStage(c, t, ps, x, g) && who < |ps| && w.gowner.None?
    requires Reaches(c.ids[who], View(ps[who], x, None, g), w, signals)
    ensures Leads(t, u, []) && w.p.slot == c.k
    ensures OnStage(c, u, After(ps, who, w.p, c.k, signals), w.x, w.gclients)
  {
    hide Alone, Leads;
    var i := c.ids[who];
    ViewOnStage(c, t, ps, x, g, who);
    var n :| Alone(i, ViewOf(t, i), n) == Some(Ran(w, signals));
    AloneIsRun(t, i, n);
    u := Played(t, i, w, signals);
    assert ps[who].slot == c.k;
    StillOnStage(c, t, ps, x, g, who, w, signals);
  }

  lemma NobodyWoken(ps: seq<Proc>, who: nat, p: Proc, k: nat)
    requires who < |ps|
    ensures After(ps, who, p, k, {}) == ps[who := p]
  {
  }

  /** A stretch that notifies nobody. */
  lemma PlaysQuietly(c: Cast, t: State, ps: seq<Proc>, x: Slot, g: int, who: nat, w: View) returns (u: State)
    requires CastOk(c) && OnStage(c, t, ps, x, g) && who < |ps| && w.gowner.None?
    requires Reaches(c.ids[who], View(ps[who], x, None, g), w, {})
    ensures Leads(t, u, []) && OnStage(c, u, ps[who := w.p], w.x, w.gclients)
  {
    hide Leads, Reaches, OnStage, After;
    u := Plays(c, t, ps, x, g, who, w, {});
    NobodyWoken(ps, who, w.p, c.k);
  }

  lemma Begins(c: Cast, t: State, ps: seq<Proc>, x: Slot, g: int, who: nat, a: Action, p: Proc) returns (u: State)
    requires CastOk(c) && OnStage(c, t, ps, x, g) && who < |ps| && a.i == c.ids[who]
    requires var v := View(ps[who], x, None, g); CanAct(v, a) && Act(v, a) == Effect(v.(p := p), None)
    requires p.slot == ps[who].slot
    ensures Leads(t, u, BegunBy(a)) && OnStage(c, u, ps[who := p], x, g)
  {
    hide Leads, After;
    ViewOnStage(c, t, ps, x, g, who);
    var w := View(p, x, None, g);
    BeginIsPlayed(t, a, w);
    assert ps[who].slot == c.k;
    StillOnStage(c, t, ps, x, g, who, w, {});
    NobodyWoken(ps, who, p, c.k);
    u := Played(t, c.ids[who], w, {});
  }
}
