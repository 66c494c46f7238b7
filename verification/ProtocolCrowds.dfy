/** Runs on a topic with two readers, or with two publishers and a reader, from any
    initial state: a released publisher does not see the reader that has registered since,
    which breaks exclusion and mixes messages of one length. */
module ProtocolCrowds {
  import opened Options
  import opened Bytes
  import opened ProtocolModel
  import opened ProtocolSolo
  import opened ProtocolScenarios
  import opened ProtocolTurns
  import opened ProtocolBreaks
  import Control = ProtocolControl

  // ---------------------------------------------------------------- a reader that is missed

  /** The publisher, in front of its message's first byte, waited for a reader and was
      released by it. */
  function Released(p: Proc): Proc {
    p.(loc := SCheck, mode := LockWoken)
  }

  /** A member of the cast whom neither readers' leaving nor a full stop concerns. */
  predicate Unconcerned(z: Proc) {
    z.mode.Running? || z.mode.DataWoken? || z.mode.LockWoken?
  }

  /** A first reader registers, the publisher waits for it, the reader leaves. */
  lemma FirstReaderReleases(c: Cast, t: State, p: Proc, q: Proc, z: Proc, x: Slot) returns (u: State, q': Proc)
    requires CastOk(c) && |c.ids| == 3 && OnStage(c, t, [p, q, z], x, 0) && Tidy(x) && Unconcerned(z)
    requires p.loc.SLock? && p.mode.Running? && q == Woken(q) && InStep(q.handle, x)
    ensures Leads(t, u, []) && OnStage(c, u, [Released(p), q', z], x, 0)
    ensures q'.role == q.role && q'.slot == q.slot && Rests(q', x)
  {
    assert [p, q, z][0].slot == c.k;
    hide Leads, OnStage, After, CastOk, Tidy;
    var e := Entered(View(q, x, None, 0));
    var waits := p.(loc := SCheck, mode := LockWait);
    var s := FirstReaderBlocks(c, t, p, q, z, x);
    u := FinishesReading(c, s, [waits, e.p, z], x, 1, q);
    LeadsQuietly(t, s, [], u);
    q' := Received(e).p;
    PublisherIsReleased(p, e.p, z, q', c.k);
  }

  /** A first reader registers, and the publisher waits for it. */
  lemma FirstReaderBlocks(c: Cast, t: State, p: Proc, q: Proc, z: Proc, x: Slot) returns (s: State)
    requires CastOk(c) && |c.ids| == 3 && OnStage(c, t, [p, q, z], x, 0) && Tidy(x)
    requires p.loc.SLock? && p.mode.Running? && q == Woken(q) && InStep(q.handle, x)
    ensures Leads(t, s, [])
    ensures var e := Entered(View(q, x, None, 0));
      OnStage(c, s, [p.(loc := SCheck, mode := LockWait), e.p, z], e.x, 1)
  {
    var a := c.ids[0];
    hide Leads, OnStage, Reaches, CastOk;
    var e := Entered(View(q, x, None, 0));
    var waits := p.(loc := SCheck, mode := LockWait);
    var r := Registers(c, t, [p, q, z], x, 1);
    OneOfThree(p, q, z, e.p);
    SerializeWaits(a, View(p, e.x, None, 1));
    s := PlaysQuietly(c, r, [p, e.p, z], e.x, 1, 0, View(waits, e.x, None, 1));
    OneOfThree(p, e.p, z, waits);
    LeadsQuietly(t, r, [], s);
  }

  lemma PublisherIsReleased(p: Proc, q: Proc, z: Proc, q': Proc, k: nat)
    requires p.slot == k && Unconcerned(z)
    ensures After([p.(loc := SCheck, mode := LockWait), q, z], 1, q', k, {GlobalCond, LockCond}) == [Released(p), q', z]
  {
  }

  /** The released publisher is at its first byte beside a reader that has registered. */
  predicate Missed(p: Proc, r: Proc, x: Slot) {
    && p.loc.SWrite? && p.mode.Running? && p.pos == 0 && p.handle == FreshHandle(x)
    && x.desc.size == |p.msg| <= |x.block.bytes|
    && r.loc.WRead? && r.mode.Running? && r.role.Subscriber?
    && r.handle == FreshHandle(x) && r.limit == x.desc.size && r.acc == []
  }

  /** A reader that registers before the released publisher has its mutex back is missed. */
  lemma SecondReaderIsMissed(c: Cast, t: State, ps: seq<Proc>, x: Slot, who: nat)
    returns (u: State, qs: seq<Proc>, y: Slot)
    requires CastOk(c) && OnStage(c, t, ps, x, 0) && Tidy(x) && 0 < who < |ps|
    requires ps[0] == Released(ps[0]) && ps[0].handle == FreshHandle(x) && x.desc.size == |ps[0].msg|
    requires ps[who] == Woken(ps[who]) && InStep(ps[who].handle, x) && ps[who].role.Subscriber?
    ensures Leads(t, u, []) && OnStage(c, u, qs, y, 2) && |qs| == |ps| && Missed(qs[0], qs[who], y)
    ensures qs[0].role == ps[0].role && qs[0].msg == ps[0].msg && y.block == x.block
  {
    var a, p := c.ids[0], ps[0];
    hide Leads, OnStage, Reaches;
    var w := Reading(Entered(View(ps[who], x, None, 0)), 0);
    var r := StartsReading(c, t, ps, x, who, 0);
    var rs := ps[who := w.p];
    var v := View(p, w.x, None, 1);
    SerializeResumes(a, v);
    var z := Locked(a, v, SWrite).(gclients := 2, p := Goto(p, SWrite).(pos := 0));
    u := PlaysQuietly(c, r, rs, w.x, 1, 0, z);
    LeadsQuietly(t, r, [], u);
    qs, y := rs[0 := z.p], z.x;
  }

  /** Its next step then changes the block under that reader. */
  lemma NextByteOverwrites(c: Cast, u: State, qs: seq<Proc>, y: Slot, who: nat)
    requires CastOk(c) && OnStage(c, u, qs, y, 2) && 0 < who < |qs| && Missed(qs[0], qs[who], y)
    requires IsMessage(qs[0].msg) && y.block.bytes[0] != qs[0].msg[0]
    ensures c.k < |u.slots| && Enabled(u, Step(c.ids[0]))
    ensures c.k < |Apply(u, Step(c.ids[0])).slots|
    ensures Apply(u, Step(c.ids[0])).slots[c.k].block != u.slots[c.k].block
    ensures c.ids[who] < |u.procs| && Control.Registered(u.procs[c.ids[who]], Control.SlotClients(c.k))
  {
    ViewOnStage(c, u, qs, y, 2, 0);
    ViewOnStage(c, u, qs, y, 2, who);
    assert Apply(u, Step(c.ids[0])).slots[c.k].block.bytes[0] == qs[0].msg[0];
  }

  predicate Among(begun: seq<(nat, Bytes)>, m: Bytes, n: Bytes) {
    forall d | 0 <= d < |begun| :: begun[d].1 == m || begun[d].1 == n
  }

  /** Some run leads from s to t in which the messages published are m and n. */
  ghost predicate LeadsWith(s: State, t: State, m: Bytes, n: Bytes) {
    exists begun :: Leads(s, t, begun) && Among(begun, m, n)
  }

  lemma LeadsOnWith(s: State, t: State, u: State, m: Bytes, n: Bytes)
    requires LeadsWith(s, t, m, n) && LeadsWith(t, u, m, n)
    ensures LeadsWith(s, u, m, n)
  {
    hide Leads;
    var first :| Leads(s, t, first) && Among(first, m, n);
    var second :| Leads(t, u, second) && Among(second, m, n);
    LeadsOn(s, t, first, u, second);
  }

  lemma LeadsWithThose(s: State, t: State, begun: seq<(nat, Bytes)>, m: Bytes, n: Bytes)
    requires Leads(s, t, begun) && Among(begun, m, n)
    ensures LeadsWith(s, t, m, n)
  {
  }

  /** m is published whole and n announced, with a reader woken in between. */
  lemma WokenBetween(c: Cast, t: State, p: Proc, q: Proc, z: Proc, x: Slot, m: Bytes, n: Bytes)
    returns (u: State, p': Proc, y: Slot)
    requires CastOk(c) && |c.ids| == 3 && OnStage(c, t, [p, q, z], x, 0) && Tidy(x)
    requires p.role.Publisher? && Rests(p, x) && q == Waiting(q) && (z == Waiting(z) || z.mode.Running?)
    requires IsMessage(m) && IsMessage(n) && |m| == |n|
    ensures LeadsWith(t, u, m, n)
    ensures OnStage(c, u, [p', Woken(q), if z == Waiting(z) then Woken(z) else z], y, 0) && Tidy(y)
    ensures p'.loc.SLock? && p'.mode.Running? && p'.role.Publisher? && p'.handle == FreshHandle(y) && p'.msg == n
    ensures y.desc.size == |n| && y.block.bytes[..|m|] == m
    ensures y.block.id - y.desc.resizeCount == x.block.id - x.desc.resizeCount
  {
    var i, z' := c.ids[0], if z == Waiting(z) then Woken(z) else z;
    hide Leads, OnStage, Announced, CastOk, Rests, WokenBy, After, Tidy, IsMessage;
    var r, v, w := WokenByPublish(c, t, p, q, z, x, m);
    AnnouncedAgain(v, w, n, m);
    u := Announces(c, r, [v, Woken(q), z'], w, 0, n);
    LeadsOn(t, r, [(i, m)], u, [(i, n)]);
    LeadsWithThose(t, u, [(i, m)] + [(i, n)], m, n);
    p', y := Announced(v, w, n).p, Announced(v, w, n).x;
    OneOfThree(v, Woken(q), z', p');
  }

  lemma WokenByPublish(c: Cast, t: State, p: Proc, q: Proc, z: Proc, x: Slot, m: Bytes)
    returns (u: State, p': Proc, y: Slot)
    requires CastOk(c) && |c.ids| == 3 && OnStage(c, t, [p, q, z], x, 0) && Tidy(x)
    requires p.role.Publisher? && Rests(p, x) && q == Waiting(q) && (z == Waiting(z) || z.mode.Running?)
    requires IsMessage(m)
    ensures Leads(t, u, [(c.ids[0], m)])
    ensures OnStage(c, u, [p', Woken(q), if z == Waiting(z) then Woken(z) else z], y, 0) && Tidy(y)
    ensures p'.role.Publisher? && Rests(p', y) && p'.handle == FreshHandle(y)
    ensures y.desc.size == |m| && y.block.bytes[..|m|] == m
    ensures y.block.id - y.desc.resizeCount == x.block.id - x.desc.resizeCount
  {
    var v := PublishedView(p, x, m);
    BothWoken(c, t, p, q, z, x, v.p);
    hide Leads, OnStage, After, PublishedView, CastOk;
    PublishedViewFacts(p, x, m);
    u := PublishesWhole(c, t, [p, q, z], x, 0, m);
    p', y := v.p, v.x;
  }

  /** A message as long as the last one is announced in place. */
  lemma AnnouncedAgain(p: Proc, x: Slot, n: Bytes, m: Bytes)
    requires Tidy(x) && IsMessage(n) && Rests(p, x) && p.handle == FreshHandle(x)
    requires |n| == |m| == x.desc.size && x.block.bytes[..|m|] == m
    ensures var w := Announced(p, x, n); var q, y := w.p, w.x;
      && Tidy(y) && y.desc.size == |n| && y.block.bytes[..|m|] == m
      && y.block.id - y.desc.resizeCount == x.block.id - x.desc.resizeCount
      && q.loc.SLock? && q.mode.Running? && q.handle == FreshHandle(y) && q.msg == n && q.role == p.role
  {
    AnnouncedFacts(p, x, n);
  }

  lemma BothWoken(c: Cast, t: State, p: Proc, q: Proc, z: Proc, x: Slot, p': Proc)
    requires CastOk(c) && |c.ids| == 3 && OnStage(c, t, [p, q, z], x, 0)
    requires q == Waiting(q) && (z == Waiting(z) || z.mode.Running?)
    ensures After([p, q, z], 0, p', c.k, {GlobalCond, DataCond})
         == [p', Woken(q), if z == Waiting(z) then Woken(z) else z]
  {
    assert [p, q, z][1].slot == c.k && [p, q, z][2].slot == c.k;
  }

  /** The publisher of n, released from its wait, and a woken reader that it will not see,
      on a block that starts with m. */
  ghost predicate Poised(init: State, c: Cast, t: State, ps: seq<Proc>, x: Slot, who: nat, m: Bytes, n: Bytes) {
    && LeadsWith(init, t, m, n) && c.s == init
    && CastOk(c) && OnStage(c, t, ps, x, 0) && Tidy(x) && 0 < who < |ps|
    && ps[0] == Released(ps[0]) && ps[0].handle == FreshHandle(x) && ps[0].msg == n
    && x.desc.size == |n| && |m| == |n| && m <= x.block.bytes
    && ps[who] == Woken(ps[who]) && InStep(ps[who].handle, x) && ps[who].role.Subscriber?
  }

  /** Two readers of one topic: the second is missed. */
  lemma TwoReadersPoised(init: State, k: nat, a: nat, b: nat, d: nat, m: Bytes, n: Bytes)
    returns (c: Cast, t: State, ps: seq<Proc>, x: Slot)
    requires Init(init) && k < |init.slots| && a < |init.procs| && b < |init.procs| && d < |init.procs| && b != d
    requires init.procs[a].slot == init.procs[b].slot == init.procs[d].slot == k
    requires init.procs[a].role.Publisher? && init.procs[b].role.Subscriber? && init.procs[d].role.Subscriber?
    requires IsMessage(m) && IsMessage(n) && |m| == |n|
    ensures c == Cast(init, k, [a, b, d]) && Poised(init, c, t, ps, x, 2, m, n)
  {
    Beginner(init, a);
    Beginner(init, b);
    Beginner(init, d);
    c := OpensTrio(init, k, a, b, d);
    var x0, p, q, z := init.slots[k], init.procs[a], init.procs[b], init.procs[d];
    hide Init, Leads, LeadsWith, OnStage, StoreOk, CastOk, IsReader, Rests, InStep, Poised, IsMessage;
    var r := ReaderWaits(c, init, [p, q, z], x0, 1);
    var q' := Waiting(Connected(q, x0));
    OneOfThree(p, q, z, q');
    var s := ReaderWaits(c, r, [p, q', z], x0, 2);
    LeadsQuietly(init, r, [], s);
    LeadsWithThose(init, s, [], m, n);
    var z' := Waiting(Connected(z, x0));
    OneOfThree(p, q', z, z');
    ConnectedInStep(q, x0);
    ConnectedInStep(z, x0);
    t, ps, x := TwoWaitingPoised(init, c, s, p, q', z', x0, m, n);
  }

  lemma TwoWaitingPoised(init: State, c: Cast, s: State, p: Proc, q: Proc, z: Proc, x0: Slot, m: Bytes, n: Bytes)
    returns (t: State, ps: seq<Proc>, x: Slot)
    requires LeadsWith(init, s, m, n) && c.s == init
    requires CastOk(c) && |c.ids| == 3 && OnStage(c, s, [p, q, z], x0, 0) && Tidy(x0)
    requires p.role.Publisher? && Rests(p, x0) && q == Waiting(q) && z == Waiting(z)
    requires InStep(q.handle, x0) && InStep(z.handle, x0) && z.role.Subscriber?
    requires IsMessage(m) && IsMessage(n) && |m| == |n|
    ensures Poised(init, c, t, ps, x, 2, m, n)
  {
    hide Leads, LeadsWith, OnStage, CastOk, Rests, IsMessage;
    var r, p', y := WokenBetween(c, s, p, q, z, x0, m, n);
    var q';
    t, q' := FirstReaderReleases(c, r, p', Woken(q), Woken(z), y);
    LeadsWithThose(r, t, [], m, n);
    LeadsOnWith(init, s, r, m, n);
    LeadsOnWith(init, r, t, m, n);
    ps, x := [Released(p'), q', Woken(z)], y;
    assert m <= y.block.bytes;
  }

  /** Two publishers of one topic, and a reader that comes back: the publisher that was
      released first misses it. */
  lemma TwoPublishersPoised(init: State, k: nat, a: nat, b: nat, d: nat, m: Bytes, n: Bytes)
    returns (c: Cast, t: State, ps: seq<Proc>, x: Slot)
    requires Init(init) && k < |init.slots| && a < |init.procs| && b < |init.procs| && d < |init.procs| && a != d
    requires init.procs[a].slot == init.procs[b].slot == init.procs[d].slot == k
    requires init.procs[a].role.Publisher? && init.procs[b].role.Subscriber? && init.procs[d].role.Publisher?
    requires IsMessage(m) && IsMessage(n) && |m| == |n|
    ensures c == Cast(init, k, [a, b, d]) && Poised(init, c, t, ps, x, 1, m, n)
  {
    Beginner(init, a);
    Beginner(init, b);
    Beginner(init, d);
    c := OpensTrio(init, k, a, b, d);
    var x0, p, q, z := init.slots[k], init.procs[a], init.procs[b], init.procs[d];
    hide Init, Leads, LeadsWith, OnStage, StoreOk, CastOk, IsReader, InStep, Poised, IsMessage;
    var s := ReaderWaits(c, init, [p, q, z], x0, 1);
    LeadsWithThose(init, s, [], m, n);
    var q' := Waiting(Connected(q, x0));
    OneOfThree(p, q, z, q');
    ConnectedInStep(q, x0);
    t, ps, x := WaitingAndOtherPoised(init, c, s, p, q', z, x0, m, n);
  }

  lemma WaitingAndOtherPoised(init: State, c: Cast, s: State, p: Proc, q: Proc, z: Proc, x0: Slot, m: Bytes, n: Bytes)
    returns (t: State, ps: seq<Proc>, x: Slot)
    requires LeadsWith(init, s, m, n) && c.s == init
    requires CastOk(c) && |c.ids| == 3 && OnStage(c, s, [p, q, z], x0, 0) && Tidy(x0)
    requires p.role.Publisher? && Rests(p, x0) && z.role.Publisher? && Rests(z, x0)
    requires q == Waiting(q) && q.role.Subscriber? && InStep(q.handle, x0)
    requires IsMessage(m) && IsMessage(n) && |m| == |n|
    ensures Poised(init, c, t, ps, x, 1, m, n)
  {
    hide Leads, LeadsWith, OnStage, StoreOk, CastOk, Poised, IsMessage;
    var r, p', y := WokenBetween(c, s, p, q, z, x0, m, n);
    var v, q' := FirstReaderReleases(c, r, p', Woken(q), z, y);
    LeadsWithThose(r, v, [], m, n);
    LeadsOnWith(init, s, r, m, n);
    LeadsOnWith(init, r, v, m, n);
    t, ps, x := OvertakenPoised(init, c, v, p', q', z, y, m, n);
  }

  /** The other publisher overtakes the released one and wakes the reader again. */
  lemma OvertakenPoised(init: State, c: Cast, v: State, p: Proc, q: Proc, z: Proc, y: Slot, m: Bytes, n: Bytes)
    returns (t: State, ps: seq<Proc>, x: Slot)
    requires LeadsWith(init, v, m, n) && c.s == init
    requires CastOk(c) && |c.ids| == 3 && OnStage(c, v, [Released(p), q, z], y, 0) && Tidy(y)
    requires p.handle == FreshHandle(y) && p.msg == n && y.desc.size == |n|
    requires q.role.Subscriber? && Rests(q, y) && z.role.Publisher? && Rests(z, y)
    requires IsMessage(m) && |m| == |n|
    ensures Poised(init, c, t, ps, x, 1, m, n)
  {
    assert [Released(p), q, z][1].slot == c.k;
    PublishedViewFacts(z, y, m);
    hide Leads, LeadsWith, OnStage, After, StoreOk, PublishedView;
    var w := WaitsForData(c, v, [Released(p), q, z], y, 1);
    OneOfThree(Released(p), q, z, Waiting(q));
    var o := PublishedView(z, y, m);
    t := PublishesWhole(c, w, [Released(p), Waiting(q), z], y, 2, m);
    LeadsWithThose(v, w, [], m, n);
    LeadsWithThose(w, t, [(c.ids[2], m)], m, n);
    LeadsOnWith(init, v, w, m, n);
    LeadsOnWith(init, w, t, m, n);
    ReaderWokenAgain(p, q, z, o.p, c.k);
    ps, x := [Released(p), Woken(q), o.p], o.x;
    assert m <= x.block.bytes;
  }

  lemma ReaderWokenAgain(p: Proc, q: Proc, z: Proc, z': Proc, k: nat)
    requires q.slot == k
    ensures After([Released(p), Waiting(q), z], 2, z', k, {GlobalCond, DataCond}) == [Released(p), Woken(q), z']
  {
  }

  // ---------------------------------------------------------------- exclusion broken

  /** Exclusion fails in state s: its next step changes the block under a registered reader. */
  ghost predicate Broken(init: State, k: nat, s: State, a: Action, j: nat) {
    && (exists begun :: Leads(init, s, begun))
    && Enabled(s, a) && k < |s.slots| && k < |Apply(s, a).slots|
    && Apply(s, a).slots[k].block != s.slots[k].block
    && j < |s.procs| && Control.Registered(s.procs[j], Control.SlotClients(k))
  }

  /** From the released publisher to the broken state. */
  lemma BreaksOnStage(init: State, c: Cast, t: State, ps: seq<Proc>, x: Slot, who: nat, m: Bytes, n: Bytes)
    returns (u: State)
    requires Poised(init, c, t, ps, x, who, m, n) && IsMessage(n) && m[0] != n[0]
    ensures who < |c.ids| && Broken(init, c.k, u, Step(c.ids[0]), c.ids[who])
  {
    assert who < |c.ids|;
    hide Leads, OnStage;
    var qs, y;
    u, qs, y := SecondReaderIsMissed(c, t, ps, x, who);
    LeadsWithThose(t, u, [], m, n);
    LeadsOnWith(init, t, u, m, n);
    assert y.block.bytes[0] == m[0];
    NextByteOverwrites(c, u, qs, y, who);
  }

  const FIRST: Bytes := [0, 0, 0, 0, 0, 0, 0, 0]
  const OTHER: Bytes := [1, 0, 0, 0, 0, 0, 0, 0]

  /** Two readers of one topic. */
  lemma TwoReadersBreak(init: State, k: nat, a: nat, b: nat, d: nat) returns (u: State)
    requires Init(init) && k < |init.slots| && a < |init.procs| && b < |init.procs| && d < |init.procs| && b != d
    requires init.procs[a].slot == init.procs[b].slot == init.procs[d].slot == k
    requires init.procs[a].role.Publisher? && init.procs[b].role.Subscriber? && init.procs[d].role.Subscriber?
    ensures Broken(init, k, u, Step(a), d)
  {
    hide Init, Poised, Broken;
    var c, t, ps, x := TwoReadersPoised(init, k, a, b, d, FIRST, OTHER);
    u := BreaksOnStage(init, c, t, ps, x, 2, FIRST, OTHER);
  }

  /** Two publishers of one topic, and a reader that comes back. */
  lemma TwoPublishersBreak(init: State, k: nat, a: nat, b: nat, d: nat) returns (u: State)
    requires Init(init) && k < |init.slots| && a < |init.procs| && b < |init.procs| && d < |init.procs| && a != d
    requires init.procs[a].slot == init.procs[b].slot == init.procs[d].slot == k
    requires init.procs[a].role.Publisher? && init.procs[b].role.Subscriber? && init.procs[d].role.Publisher?
    ensures Broken(init, k, u, Step(a), b)
  {
    hide Init, Poised, Broken;
    var c, t, ps, x := TwoPublishersPoised(init, k, a, b, d, FIRST, OTHER);
    u := BreaksOnStage(init, c, t, ps, x, 1, FIRST, OTHER);
  }

  // ---------------------------------------------------------------- a delivery mixed of two messages

  /** Process j has been delivered g, in a run from init whose messages are m and n. */
  ghost predicate Mixed(init: State, u: State, j: nat, g: Bytes, m: Bytes, n: Bytes) {
    && LeadsWith(init, u, m, n)
    && j < |u.procs| && u.procs[j].got != [] && u.procs[j].got[|u.procs[j].got| - 1] == g
  }

  /** A reader in its body, with j bytes read, reads on up to n. */
  lemma {:induction false} ReadsOn(i: nat, v: View, n: nat)
    requires At(v, WRead) && v.p.handle == FreshHandle(v.x)
    requires |v.p.acc| <= n <= v.p.limit && n <= |v.x.block.bytes|
    ensures Reaches(i, v, v.(p := v.p.(acc := v.p.acc + v.x.block.bytes[|v.p.acc|..n])), {})
    decreases n
  {
    hide Alone, Reaches;
    var j := |v.p.acc|;
    if n == j {
      Already(i, v);
      assert v.p.acc + v.x.block.bytes[j..n] == v.p.acc;
    } else {
      ReadsOn(i, v, n - 1);
      var before, after := v.p.acc + v.x.block.bytes[j..n - 1], v.p.acc + v.x.block.bytes[j..n];
      assert after == before + [v.x.block.bytes[n - 1]];
      More(i, v, v.(p := v.p.(acc := before)), {}, v.(p := v.p.(acc := after)));
    }
  }

  lemma ReadsToEnd(i: nat, v: View)
    requires At(v, WRead) && v.p.handle == FreshHandle(v.x)
    requires |v.p.acc| <= v.p.limit <= |v.x.block.bytes|
    ensures var g := v.p.acc + v.x.block.bytes[|v.p.acc|..v.p.limit];
      Reaches(i, v, v.(p := Goto(v.p, WLockG2).(acc := g, got := v.p.got + [g],
                                                seen := v.p.seen + [|v.x.published| - 1])), {})
  {
    hide Alone, Reaches;
    ReadsOn(i, v, v.p.limit);
    var g := v.p.acc + v.x.block.bytes[|v.p.acc|..v.p.limit];
    More(i, v, v.(p := v.p.(acc := g)), {},
         v.(p := Goto(v.p, WLockG2).(acc := g, got := v.p.got + [g], seen := v.p.seen + [|v.x.published| - 1])));
  }

  /** The missed reader reads the first byte, the publisher writes its whole message, and
      the reader goes on. */
  lemma MixesOnStage(init: State, c: Cast, t: State, ps: seq<Proc>, x: Slot, who: nat, m: Bytes, n: Bytes)
    returns (u: State, g: Bytes)
    requires Poised(init, c, t, ps, x, who, m, n) && IsMessage(n)
    ensures who < |c.ids| && g == m[..1] + n[1..] && Mixed(init, u, c.ids[who], g, m, n)
  {
    assert who < |c.ids|;
    hide Leads, OnStage;
    var s, qs, y := SecondReaderIsMissed(c, t, ps, x, who);
    LeadsWithThose(t, s, [], m, n);
    LeadsOnWith(init, t, s, m, n);
    u, g := MixesFromMissed(c, s, qs, y, who, m, n);
    LeadsWithThose(s, u, [], m, n);
    LeadsOnWith(init, s, u, m, n);
  }

  lemma MixesFromMissed(c: Cast, s: State, qs: seq<Proc>, y: Slot, who: nat, m: Bytes, n: Bytes)
    returns (u: State, g: Bytes)
    requires CastOk(c) && OnStage(c, s, qs, y, 2) && 0 < who < |qs| == |c.ids| && Missed(qs[0], qs[who], y)
    requires qs[0].msg == n && IsMessage(n) && |m| == |n| && m <= y.block.bytes
    ensures Leads(s, u, []) && g == m[..1] + n[1..]
    ensures c.ids[who] < |u.procs| && u.procs[c.ids[who]].got == qs[who].got + [g]
  {
    hide Leads, Reaches, OnStage;
    var p, q := qs[0], qs[who];
    ReadsOn(c.ids[who], View(q, y, None, 2), 1);
    var q1 := q.(acc := q.acc + y.block.bytes[0..1]);
    var r := PlaysQuietly(c, s, qs, y, 2, who, View(q1, y, None, 2));
    var rs := qs[who := q1];
    WritesSome(c.ids[0], View(p, y, None, 2), |n|);
    var w := Writing(View(p, y, None, 2), |n|);
    var t := PlaysQuietly(c, r, rs, y, 2, 0, w);
    var ts := rs[0 := w.p];
    ReadsToEnd(c.ids[who], View(q1, w.x, None, 2));
    g := q1.acc + w.x.block.bytes[1..|n|];
    var q2 := Goto(q1, WLockG2).(acc := g, got := q1.got + [g], seen := q1.seen + [|w.x.published| - 1]);
    u := PlaysQuietly(c, t, ts, w.x, 2, who, View(q2, w.x, None, 2));
    LeadsQuietly(s, r, [], t);
    LeadsQuietly(s, t, [], u);
    MixedBytes(y.block.bytes, m, n);
    MemberIs(c, u, ts[who := q2], w.x, 2, who);
  }

  lemma MixedBytes(b: Bytes, m: Bytes, n: Bytes)
    requires m <= b && |m| == |n| > 0
    ensures ([] + b[0..1]) + Overwritten(b, n, |n|)[1..|n|] == m[..1] + n[1..]
  {
  }

  lemma MemberIs(c: Cast, u: State, us: seq<Proc>, x: Slot, g: int, who: nat)
    requires CastOk(c) && OnStage(c, u, us, x, g) && who < |us|
    ensures c.ids[who] < |u.procs| && u.procs[c.ids[who]] == us[who]
  {
  }
}
