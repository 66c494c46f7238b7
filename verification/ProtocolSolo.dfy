/** Runs of the step model in which one process at a time does a whole routine, or a
    part of one: what reallocateBlock, serialize and wait_data amount to when nobody
    interferes. */
module ProtocolSolo {
  import opened Options
  import opened Bytes
  import opened Descriptor
  import opened ProtocolModel

  // ---------------------------------------------------------------- one process running alone

  /** The view of a process after some steps, and the conditions it has notified. */
  datatype Ran = Ran(v: View, signals: set<Cond>)

  function Signals(c: Option<Cond>): set<Cond> {
    if c.Some? then {c.value} else {}
  }

  function Alone(i: nat, v: View, n: nat): Option<Ran> {
    if n == 0 then Some(Ran(v, {})) else
    match Alone(i, v, n - 1)
    case None => None
    case Some(r) =>
      if !CanStep(r.v) then None else
      var e := Act(r.v, Step(i));
      Some(Ran(e.v, r.signals + Signals(e.signal)))
  }

  ghost predicate Reaches(i: nat, v: View, w: View, signals: set<Cond>) {
    exists n :: Alone(i, v, n) == Some(Ran(w, signals))
  }

  lemma {:induction false} AloneTwice(i: nat, v: View, m: nat, w: View, a: set<Cond>, n: nat, u: View, b: set<Cond>)
    requires Alone(i, v, m) == Some(Ran(w, a)) && Alone(i, w, n) == Some(Ran(u, b))
    ensures Alone(i, v, m + n) == Some(Ran(u, a + b))
    decreases n
  {
    hide CanStep, Act;
    if n > 0 {
      var r := Alone(i, w, n - 1).value;
      AloneTwice(i, v, m, w, a, n - 1, r.v, r.signals);
      var c := Signals(Act(r.v, Step(i)).signal);
      assert a + (r.signals + c) == a + r.signals + c;
    } else {
      assert a + {} == a;
    }
  }

  lemma Then(i: nat, v: View, w: View, a: set<Cond>, u: View, b: set<Cond>)
    requires Reaches(i, v, w, a) && Reaches(i, w, u, b)
    ensures Reaches(i, v, u, a + b)
  {
    var m :| Alone(i, v, m) == Some(Ran(w, a));
    var n :| Alone(i, w, n) == Some(Ran(u, b));
    AloneTwice(i, v, m, w, a, n, u, b);
  }

  lemma ThenAfter(i: nat, v: View, w: View, u: View, b: set<Cond>)
    requires Reaches(i, v, w, {}) && Reaches(i, w, u, b)
    ensures Reaches(i, v, u, b)
  {
    hide Reaches;
    Then(i, v, w, {}, u, b);
    assert {} + b == b;
  }

  lemma OneStep(i: nat, v: View)
    requires CanStep(v)
    ensures Reaches(i, v, Act(v, Step(i)).v, Signals(Act(v, Step(i)).signal))
  {
    hide CanStep, Act;
    assert Alone(i, v, 0) == Some(Ran(v, {}));
    var s := Signals(Act(v, Step(i)).signal);
    assert {} + s == s;
    assert Alone(i, v, 1) == Some(Ran(Act(v, Step(i)).v, s));
  }

  /** A step that notifies nobody, added to what was reached. */
  lemma More(i: nat, v: View, w: View, a: set<Cond>, u: View)
    requires Reaches(i, v, w, a) && CanStep(w) && Act(w, Step(i)) == Effect(u, None)
    ensures Reaches(i, v, u, a)
  {
    hide CanStep, Act, Reaches;
    OneStep(i, w);
    Then(i, v, w, a, u, {});
    assert a + {} == a;
  }

  /** A step that notifies condition c, added to what was reached. */
  lemma MoreNotify(i: nat, v: View, w: View, a: set<Cond>, u: View, c: Cond)
    requires Reaches(i, v, w, a) && CanStep(w) && Act(w, Step(i)) == Effect(u, Some(c))
    ensures Reaches(i, v, u, a + {c})
  {
    hide CanStep, Act, Reaches;
    OneStep(i, w);
    Then(i, v, w, a, u, {c});
  }

  lemma Already(i: nat, v: View)
    ensures Reaches(i, v, v, {})
  {
    assert Alone(i, v, 0) == Some(Ran(v, {}));
  }

  // ---------------------------------------------------------------- reallocateBlock

  predicate At(v: View, l: Loc) {
    v.p.loc == l && v.p.mode.Running?
  }

  /** No mutex is held. */
  predicate Unlocked(v: View) {
    v.x.owner.None? && v.gowner.None?
  }

  predicate NoClients(v: View) {
    v.x.clients == 0 && v.gclients == 0
  }

  /** A handle whose count is the slot's is the slot's. */
  predicate Detectable(v: View) {
    v.p.handle.Handle? && v.p.handle.resizeCount == v.x.desc.resizeCount ==> v.p.handle == FreshHandle(v.x)
  }

  /** The slot after reallocateBlock for a message of n bytes. */
  function Resized(x: Slot, n: nat): Slot {
    if n > x.desc.capacity then Recreated(x, n) else x.(desc := RecordSize(x.desc, n, 0))
  }

  function Locked(i: nat, v: View, l: Loc): View {
    v.(p := Goto(v.p, l), x := v.x.(owner := Some(i)))
  }

  lemma ReallocateEnters(i: nat, v: View)
    requires At(v, RLock) && Unlocked(v) && NoClients(v)
    ensures Reaches(i, v, Locked(i, v, RStale), {})
  {
    hide Alone, Reaches;
    Already(i, v);
    More(i, v, v, {}, Locked(i, v, RCheck));
    More(i, v, Locked(i, v, RCheck), {}, Locked(i, v, RStale));
  }

  /** The stale handle is looked up under the global mutex. */
  lemma ReallocateRefreshes(i: nat, v: View)
    requires At(v, RStale) && v.gowner.None? && v.gclients == 0 && Detectable(v)
    ensures Reaches(i, v, v.(p := Goto(v.p, RGrow).(handle := FreshHandle(v.x))), {})
  {
    hide Alone, Reaches;
    Already(i, v);
    var p := v.p.(handle := FreshHandle(v.x));
    if v.p.handle.Handle? && v.p.handle.resizeCount == v.x.desc.resizeCount {
      More(i, v, v, {}, v.(p := Goto(p, RGrow)));
    } else {
      var g := v.(gowner := Some(i));
      More(i, v, v, {}, v.(p := Goto(v.p, RLockG1)));
      More(i, v, v.(p := Goto(v.p, RLockG1)), {}, g.(p := Goto(v.p, RCheckG1)));
      More(i, v, g.(p := Goto(v.p, RCheckG1)), {}, g.(p := Goto(v.p, RRefresh)));
      More(i, v, g.(p := Goto(v.p, RRefresh)), {}, g.(p := Goto(p, RUnlockG1)));
      More(i, v, g.(p := Goto(p, RUnlockG1)), {}, v.(p := Goto(p, RGrow)));
    }
  }

  /** The block is made anew under the global mutex, or only the size is recorded. */
  lemma ReallocateResizes(i: nat, v: View)
    requires At(v, RGrow) && v.gowner.None? && v.gclients == 0
    requires v.p.handle == FreshHandle(v.x) && DescOk(v.x.desc)
    ensures var y := Resized(v.x, |v.p.msg|);
            Reaches(i, v, v.(p := Goto(v.p, RUnlock).(handle := FreshHandle(y)), x := y), {})
  {
    hide Alone, Reaches;
    Already(i, v);
    var y := Resized(v.x, |v.p.msg|);
    var q := v.p.(handle := FreshHandle(y));
    if |v.p.msg| > v.x.desc.capacity {
      var g := v.(gowner := Some(i));
      More(i, v, v, {}, v.(p := Goto(v.p, RLockG2)));
      More(i, v, v.(p := Goto(v.p, RLockG2)), {}, g.(p := Goto(v.p, RCheckG2)));
      More(i, v, g.(p := Goto(v.p, RCheckG2)), {}, g.(p := Goto(v.p, RRecreate)));
      More(i, v, g.(p := Goto(v.p, RRecreate)), {}, g.(p := Goto(q, RUnlockG2), x := y));
      More(i, v, g.(p := Goto(q, RUnlockG2), x := y), {}, v.(p := Goto(q, RUnlock), x := y));
    } else {
      More(i, v, v, {}, v.(p := Goto(v.p, RRecord)));
      More(i, v, v.(p := Goto(v.p, RRecord)), {}, v.(p := Goto(q, RUnlock), x := y));
    }
  }

  function Reallocated(v: View): View {
    var y := Resized(v.x, |v.p.msg|);
    v.(p := Goto(v.p, SLock).(handle := FreshHandle(y)), x := y)
  }

  /** reallocateBlock alone: whatever the handle and the block were before, the slot is
      sized for the message and the handle is that of the live block. */
  lemma ReallocateAlone(i: nat, v: View)
    requires At(v, RLock) && Unlocked(v) && NoClients(v) && Detectable(v) && DescOk(v.x.desc)
    ensures Reaches(i, v, Reallocated(v), {})
  {
    hide Alone, Reaches, DescOk;
    var w := Locked(i, v, RStale);
    ReallocateEnters(i, v);
    ReallocateRefreshes(i, w);
    var h := w.(p := Goto(w.p, RGrow).(handle := FreshHandle(w.x)));
    ReallocateResizes(i, h);
    var y := Resized(h.x, |h.p.msg|);
    var z := h.(p := Goto(h.p, RUnlock).(handle := FreshHandle(y)), x := y);
    ThenAfter(i, v, w, h, {});
    ThenAfter(i, v, h, z, {});
    More(i, v, z, {}, Reallocated(v));
  }

  // ---------------------------------------------------------------- serialize

  /** The block's bytes once the first n bytes of m have been stored. */
  function Overwritten(b: Bytes, m: Bytes, n: nat): Bytes
    requires n <= |m| && n <= |b|
  {
    m[..n] + b[n..]
  }

  /** The serializer at byte n of its message. */
  function Writing(v: View, n: nat): View
    requires n <= |v.p.msg| && n <= |v.x.block.bytes|
  {
    v.(p := Goto(v.p, SWrite).(pos := n),
       x := v.x.(block := v.x.block.(bytes := Overwritten(v.x.block.bytes, v.p.msg, n))))
  }

  predicate Sized(v: View) {
    && IsMessage(v.p.msg)
    && v.x.desc.size == |v.p.msg| <= |v.x.block.bytes|
    && v.p.handle == FreshHandle(v.x)
  }

  /** The stream lets through the timestamp, and what follows it if the message fits. */
  lemma {:induction false} WritesSome(i: nat, v: View, n: nat)
    requires At(v, SWrite) && v.p.pos == 0 && IsMessage(v.p.msg) && v.p.handle == FreshHandle(v.x)
    requires 8 <= v.x.desc.size <= |v.x.block.bytes|
    requires n <= |v.p.msg| && (n > 8 ==> |v.p.msg| <= v.x.desc.size)
    ensures Reaches(i, v, Writing(v, n), {})
  {
    hide Alone, Reaches;
    if n == 0 {
      Already(i, v);
      assert Overwritten(v.x.block.bytes, v.p.msg, 0) == v.x.block.bytes;
    } else {
      WritesSome(i, v, n - 1);
      assert Overwritten(v.x.block.bytes, v.p.msg, n - 1)[n - 1 := v.p.msg[n - 1]]
          == Overwritten(v.x.block.bytes, v.p.msg, n);
      More(i, v, Writing(v, n - 1), {}, Writing(v, n));
    }
  }

  /** Entering serialize; the global counter is incremented without a check. */
  lemma SerializeEnters(i: nat, v: View)
    requires At(v, SLock) && Unlocked(v) && v.x.clients == 0 && v.p.handle == FreshHandle(v.x)
    ensures Reaches(i, v, Locked(i, v, SWrite).(gclients := v.gclients + 1, p := Goto(v.p, SWrite).(pos := 0)), {})
  {
    hide Alone, Reaches;
    Already(i, v);
    More(i, v, v, {}, Locked(i, v, SCheck));
    More(i, v, Locked(i, v, SCheck), {}, Locked(i, v, SLockG));
    var w := Locked(i, v, SLockG);
    SerializeRegisters(i, w);
    ThenAfter(i, v, w, w.(gclients := w.gclients + 1, p := Goto(w.p, SWrite).(pos := 0)), {});
  }

  lemma SerializeRegisters(i: nat, w: View)
    requires At(w, SLockG) && w.gowner.None? && w.p.handle == FreshHandle(w.x)
    ensures Reaches(i, w, w.(gclients := w.gclients + 1, p := Goto(w.p, SWrite).(pos := 0)), {})
  {
    hide Alone, Reaches;
    var g, r := w.(gowner := Some(i)), w.(gclients := w.gclients + 1);
    Already(i, w);
    More(i, w, w, {}, g.(p := Goto(w.p, SInc)));
    More(i, w, g.(p := Goto(w.p, SInc)), {}, r.(p := Goto(w.p, SUnlockG), gowner := Some(i)));
    More(i, w, r.(p := Goto(w.p, SUnlockG), gowner := Some(i)), {}, r.(p := Goto(w.p, SRefresh)));
    More(i, w, r.(p := Goto(w.p, SRefresh)), {}, r.(p := Goto(w.p, SWrite).(pos := 0)));
  }

  /** From the last byte to the end: unregister, signal, unlock. */
  lemma SerializeLeaves(i: nat, v: View)
    requires At(v, SWrite) && v.p.pos >= |v.p.msg| && v.gowner.None? && v.gclients == 1
    ensures var x := v.x.(published := v.x.published + [v.p.msg], owner := None);
            Reaches(i, v, v.(p := Goto(v.p, Idle), x := x, gclients := 0), {GlobalCond, DataCond})
  {
    hide Alone, Reaches;
    Already(i, v);
    var w := v.(x := v.x.(published := v.x.published + [v.p.msg]));
    var u := w.(gclients := 0);
    More(i, v, v, {}, w.(p := Goto(v.p, SLockG2)));
    More(i, v, w.(p := Goto(v.p, SLockG2)), {}, w.(p := Goto(v.p, SDec), gowner := Some(i)));
    MoreNotify(i, v, w.(p := Goto(v.p, SDec), gowner := Some(i)), {},
               u.(p := Goto(v.p, SUnlockG2), gowner := Some(i)), GlobalCond);
    assert {} + {GlobalCond} == {GlobalCond};
    assert {GlobalCond} + {DataCond} == {GlobalCond, DataCond};
    More(i, v, u.(p := Goto(v.p, SUnlockG2), gowner := Some(i)), {GlobalCond}, u.(p := Goto(v.p, SSignal)));
    MoreNotify(i, v, u.(p := Goto(v.p, SSignal)), {GlobalCond}, u.(p := Goto(v.p, SUnlock)), DataCond);
    More(i, v, u.(p := Goto(v.p, SUnlock)), {GlobalCond, DataCond}, u.(p := Goto(v.p, Idle), x := u.x.(owner := None)));
  }

  function Overran(v: View): View
    requires 8 <= |v.p.msg| && 8 <= |v.x.block.bytes|
  {
    var w := Writing(v, 8);
    w.(p := Goto(w.p, Thrown), gclients := v.gclients + 1)
  }

  /** A message longer than the slot's size: the exception leaves serialize after the
      timestamp, releasing the slot mutex and not the global registration. */
  lemma OverrunAlone(i: nat, v: View)
    requires At(v, SLock) && Unlocked(v) && v.x.clients == 0 && v.p.handle == FreshHandle(v.x)
    requires IsMessage(v.p.msg) && 8 <= v.x.desc.size < |v.p.msg| && v.x.desc.size <= |v.x.block.bytes|
    ensures Reaches(i, v, Overran(v), {})
    ensures v.x.owner.None? && StoreOk(v.x) ==> StoreOk(Overran(v).x)
  {
    hide Alone, Reaches;
    var s := Locked(i, v, SWrite).(gclients := v.gclients + 1, p := Goto(v.p, SWrite).(pos := 0));
    SerializeEnters(i, v);
    WritesSome(i, s, 8);
    var u := Writing(s, 8);
    ThenAfter(i, v, s, u, {});
    More(i, v, u, {}, u.(p := Goto(u.p, SUnwind)));
    More(i, v, u.(p := Goto(u.p, SUnwind)), {}, Overran(v));
  }

  function Serialized(v: View): View
    requires |v.p.msg| <= |v.x.block.bytes|
  {
    var n := |v.p.msg|;
    v.(p := Goto(v.p, Idle).(pos := n),
       x := v.x.(block := v.x.block.(bytes := Overwritten(v.x.block.bytes, v.p.msg, n)),
                 published := v.x.published + [v.p.msg]))
  }

  /** serialize alone, on a slot sized for the message: the block starts with the
      message, the bytes behind it stay, and waiting readers are woken. */
  lemma SerializeAlone(i: nat, v: View)
    requires At(v, SLock) && Unlocked(v) && NoClients(v) && Sized(v)
    ensures Reaches(i, v, Serialized(v), {GlobalCond, DataCond})
  {
    hide Alone, Reaches;
    var n := |v.p.msg|;
    var w := Locked(i, v, SWrite).(gclients := 1, p := Goto(v.p, SWrite).(pos := 0));
    SerializeEnters(i, v);
    WritesSome(i, w, n);
    SerializeLeaves(i, Writing(w, n));
    ThenAfter(i, v, w, Writing(w, n), {});
    ThenAfter(i, v, Writing(w, n), Serialized(v), {GlobalCond, DataCond});
  }

  function Published(v: View): View
    requires StoreOk(v.x)
  {
    Serialized(Reallocated(v))
  }

  /** A publish that nobody interferes with, from any handle and block: the slot's size is
      the message's, its block starts with the message, and the publisher is done. */
  lemma PublishAlone(i: nat, v: View)
    requires At(v, RLock) && Unlocked(v) && NoClients(v) && Detectable(v) && StoreOk(v.x) && IsMessage(v.p.msg)
    ensures Reaches(i, v, Published(v), {GlobalCond, DataCond})
    ensures var x, m := Published(v).x, v.p.msg;
            StoreOk(x) && x.desc.size == |m| && x.block.bytes[..|m|] == m && x.published == v.x.published + [m]
  {
    hide Alone, Reaches;
    ReallocateAlone(i, v);
    SerializeAlone(i, Reallocated(v));
    ThenAfter(i, v, Reallocated(v), Published(v), {GlobalCond, DataCond});
  }

  // ---------------------------------------------------------------- wait_data

  /** Taking the slot's mutex and waiting. */
  lemma WaitAlone(i: nat, v: View)
    requires At(v, WLock) && v.x.owner.None?
    ensures Reaches(i, v, v.(p := v.p.(loc := WWait, mode := DataWait)), {})
  {
    hide Alone, Reaches;
    Already(i, v);
    More(i, v, v, {}, Locked(i, v, WWait));
    More(i, v, Locked(i, v, WWait), {}, v.(p := v.p.(loc := WWait, mode := DataWait)));
  }

  function Entered(v: View): View {
    v.(p := Goto(v.p, WRefresh), x := v.x.(clients := v.x.clients + 1), gclients := v.gclients + 1)
  }

  /** A woken reader registers on the slot and globally, and releases the mutex. */
  lemma RegisterAlone(i: nat, v: View)
    requires v.p.loc == WWait && v.p.mode.DataWoken? && Unlocked(v)
    ensures Reaches(i, v, Entered(v), {})
  {
    hide Alone, Reaches;
    Already(i, v);
    var w := Locked(i, v, WInc);
    var u := w.(x := w.x.(clients := v.x.clients + 1));
    var z := u.(gclients := v.gclients + 1);
    More(i, v, v, {}, w);
    More(i, v, w, {}, u.(p := Goto(v.p, WLockG)));
    More(i, v, u.(p := Goto(v.p, WLockG)), {}, u.(p := Goto(v.p, WIncG), gowner := Some(i)));
    More(i, v, u.(p := Goto(v.p, WIncG), gowner := Some(i)), {}, z.(p := Goto(v.p, WUnlockG), gowner := Some(i)));
    More(i, v, z.(p := Goto(v.p, WUnlockG), gowner := Some(i)), {}, z.(p := Goto(v.p, WUnlock)));
    More(i, v, z.(p := Goto(v.p, WUnlock)), {}, Entered(v));
  }

  /** The reader with n bytes read. */
  function Reading(v: View, n: nat): View
    requires n <= v.x.desc.size <= |v.x.block.bytes|
  {
    v.(p := Goto(v.p, WRead).(handle := FreshHandle(v.x), limit := v.x.desc.size, acc := v.x.block.bytes[..n]))
  }

  lemma {:induction false} ReadsSome(i: nat, v: View, n: nat)
    requires At(v, WRefresh) && Detectable(v) && n <= v.x.desc.size <= |v.x.block.bytes|
    ensures Reaches(i, v, Reading(v, n), {})
  {
    hide Alone, Reaches;
    if n == 0 {
      Already(i, v);
      More(i, v, v, {}, v.(p := Goto(v.p, WOpen).(handle := FreshHandle(v.x))));
      More(i, v, v.(p := Goto(v.p, WOpen).(handle := FreshHandle(v.x))), {}, Reading(v, 0));
    } else {
      ReadsSome(i, v, n - 1);
      assert v.x.block.bytes[..n - 1] + [v.x.block.bytes[n - 1]] == v.x.block.bytes[..n];
      More(i, v, Reading(v, n - 1), {}, Reading(v, n));
    }
  }

  /** The last client leaves: the bytes are delivered and every waiter is released. */
  lemma ReceiveLeaves(i: nat, v: View)
    requires At(v, WRead) && |v.p.acc| >= v.p.limit && Unlocked(v) && v.x.clients == 1 && v.gclients == 1
    ensures var q := Goto(v.p, Idle).(got := v.p.got + [v.p.acc], seen := v.p.seen + [|v.x.published| - 1]);
            Reaches(i, v, v.(p := q, x := v.x.(clients := 0), gclients := 0), {GlobalCond, LockCond})
  {
    hide Alone, Reaches;
    Already(i, v);
    var q := v.p.(got := v.p.got + [v.p.acc], seen := v.p.seen + [|v.x.published| - 1]);
    var u := v.(gclients := 0);
    More(i, v, v, {}, v.(p := Goto(q, WLockG2)));
    More(i, v, v.(p := Goto(q, WLockG2)), {}, v.(p := Goto(q, WDecG), gowner := Some(i)));
    MoreNotify(i, v, v.(p := Goto(q, WDecG), gowner := Some(i)), {},
               u.(p := Goto(q, WUnlockG2), gowner := Some(i)), GlobalCond);
    assert {} + {GlobalCond} == {GlobalCond};
    More(i, v, u.(p := Goto(q, WUnlockG2), gowner := Some(i)), {GlobalCond}, u.(p := Goto(q, WLock2)));
    SlotLeaves(i, v, u.(p := Goto(q, WLock2)), {GlobalCond});
    assert {GlobalCond} + {LockCond} == {GlobalCond, LockCond};
  }

  lemma SlotLeaves(i: nat, v: View, w: View, a: set<Cond>)
    requires At(w, WLock2) && w.x.owner.None? && w.x.clients == 1 && Reaches(i, v, w, a)
    ensures Reaches(i, v, w.(p := Goto(w.p, Idle), x := w.x.(clients := 0)), a + {LockCond})
  {
    hide Alone, Reaches;
    var u := w.(x := w.x.(clients := 0));
    More(i, v, w, a, Locked(i, w, WDec));
    MoreNotify(i, v, Locked(i, w, WDec), a, Locked(i, u, WUnlock2), LockCond);
    More(i, v, Locked(i, u, WUnlock2), a + {LockCond}, u.(p := Goto(w.p, Idle)));
  }

  /** The reader's view once it has delivered what the slot's bytes say. */
  function Received(v: View): View
    requires v.x.desc.size <= |v.x.block.bytes|
  {
    var b := v.x.block.bytes[..v.x.desc.size];
    v.(p := Goto(v.p, Idle).(handle := FreshHandle(v.x), limit := v.x.desc.size, acc := b,
                             got := v.p.got + [b], seen := v.p.seen + [|v.x.published| - 1]),
       x := v.x.(clients := 0), gclients := 0)
  }

  /** A registered reader that nobody interferes with delivers the first `size_` bytes of
      the live block, whatever its handle was. */
  lemma ReceiveAlone(i: nat, v: View)
    requires At(v, WRefresh) && Unlocked(v) && v.x.clients == 1 && v.gclients == 1
    requires Detectable(v) && v.x.desc.size <= |v.x.block.bytes|
    ensures Reaches(i, v, Received(v), {GlobalCond, LockCond})
  {
    hide Alone, Reaches;
    var w := Reading(v, v.x.desc.size);
    ReadsSome(i, v, v.x.desc.size);
    ReceiveLeaves(i, w);
    ThenAfter(i, v, w, Received(v), {GlobalCond, LockCond});
  }

  // ---------------------------------------------------------------- findHandle

  /** A subscriber looks its topic up. */
  lemma FindAlone(i: nat, v: View)
    requires At(v, FLock) && v.gowner.None? && v.gclients == 0
    ensures Reaches(i, v, v.(p := Goto(v.p, Idle).(handle := FreshHandle(v.x))), {})
  {
    hide Alone, Reaches;
    Already(i, v);
    var g, q := v.(gowner := Some(i)), v.p.(handle := FreshHandle(v.x));
    More(i, v, v, {}, g.(p := Goto(v.p, FCheck)));
    More(i, v, g.(p := Goto(v.p, FCheck)), {}, g.(p := Goto(v.p, FConnect)));
    More(i, v, g.(p := Goto(v.p, FConnect)), {}, g.(p := Goto(q, FUnlock)));
    More(i, v, g.(p := Goto(q, FUnlock)), {}, v.(p := Goto(q, Idle)));
  }

  // ---------------------------------------------------------------- routines that have to wait

  /** A serializer that finds a client waits and gives the mutex back. */
  lemma SerializeWaits(i: nat, v: View)
    requires At(v, SLock) && v.x.owner.None? && v.x.clients != 0
    ensures Reaches(i, v, v.(p := v.p.(loc := SCheck, mode := LockWait)), {})
  {
    hide Alone, Reaches;
    Already(i, v);
    More(i, v, v, {}, Locked(i, v, SCheck));
    More(i, v, Locked(i, v, SCheck), {}, v.(p := v.p.(loc := SCheck, mode := LockWait)));
  }

  /** A released serializer goes on to its first byte without a second look at the counter. */
  lemma SerializeResumes(i: nat, v: View)
    requires v.p.loc == SCheck && v.p.mode.LockWoken? && Unlocked(v) && v.p.handle == FreshHandle(v.x)
    ensures Reaches(i, v, Locked(i, v, SWrite).(gclients := v.gclients + 1, p := Goto(v.p, SWrite).(pos := 0)), {})
  {
    hide Alone, Reaches;
    Already(i, v);
    More(i, v, v, {}, Locked(i, v, SLockG));
    var w := Locked(i, v, SLockG);
    SerializeRegisters(i, w);
    ThenAfter(i, v, w, w.(gclients := w.gclients + 1, p := Goto(w.p, SWrite).(pos := 0)), {});
  }

  /** A publisher whose block is too short waits for the global clients, holding the slot. */
  lemma GrowWaits(i: nat, v: View)
    requires At(v, RLock) && Unlocked(v) && v.x.clients == 0 && v.gclients != 0
    requires v.p.handle == FreshHandle(v.x) && |v.p.msg| > v.x.desc.capacity
    ensures Reaches(i, v, Locked(i, v, RCheckG2).(p := v.p.(loc := RCheckG2, mode := GlobalWait)), {})
  {
    hide Alone, Reaches;
    Already(i, v);
    More(i, v, v, {}, Locked(i, v, RCheck));
    More(i, v, Locked(i, v, RCheck), {}, Locked(i, v, RStale));
    More(i, v, Locked(i, v, RStale), {}, Locked(i, v, RGrow));
    var w := Locked(i, v, RGrow);
    GrowWaitsGlobally(i, w);
    ThenAfter(i, v, w, w.(p := w.p.(loc := RCheckG2, mode := GlobalWait)), {});
  }

  lemma GrowWaitsGlobally(i: nat, w: View)
    requires At(w, RGrow) && w.gowner.None? && w.gclients != 0 && |w.p.msg| > w.x.desc.capacity
    ensures Reaches(i, w, w.(p := w.p.(loc := RCheckG2, mode := GlobalWait)), {})
  {
    hide Alone, Reaches;
    var g := w.(gowner := Some(i));
    Already(i, w);
    More(i, w, w, {}, w.(p := Goto(w.p, RLockG2)));
    More(i, w, w.(p := Goto(w.p, RLockG2)), {}, g.(p := Goto(w.p, RCheckG2)));
    More(i, w, g.(p := Goto(w.p, RCheckG2)), {}, w.(p := w.p.(loc := RCheckG2, mode := GlobalWait)));
  }

  /** A publisher whose handle is stale waits for the global clients before it looks its block
      up again. */
  lemma StaleWaits(i: nat, v: View)
    requires At(v, RLock) && Unlocked(v) && v.x.clients == 0 && v.gclients != 0
    requires v.p.handle.Handle? && v.p.handle.resizeCount != v.x.desc.resizeCount
    ensures Reaches(i, v, Locked(i, v, RCheckG1).(p := v.p.(loc := RCheckG1, mode := GlobalWait)), {})
  {
    hide Alone, Reaches;
    var w := Locked(i, v, RLockG1);
    var g := w.(gowner := Some(i), p := Goto(v.p, RCheckG1));
    Already(i, v);
    More(i, v, v, {}, Locked(i, v, RCheck));
    More(i, v, Locked(i, v, RCheck), {}, Locked(i, v, RStale));
    More(i, v, Locked(i, v, RStale), {}, w);
    More(i, v, w, {}, g);
    More(i, v, g, {}, w.(p := v.p.(loc := RCheckG1, mode := GlobalWait)));
  }

  /** A publisher that finds a reader on the slot waits, before it looks at anything, and
      gives the mutex back. */
  lemma ReallocateWaits(i: nat, v: View)
    requires At(v, RLock) && v.x.owner.None? && v.x.clients != 0
    ensures Reaches(i, v, v.(p := v.p.(loc := RCheck, mode := LockWait)), {})
  {
    hide Alone, Reaches;
    Already(i, v);
    More(i, v, v, {}, Locked(i, v, RCheck));
    More(i, v, Locked(i, v, RCheck), {}, v.(p := v.p.(loc := RCheck, mode := LockWait)));
  }

  /** A reader whose wait for data has run out leaves with nothing. */
  lemma ExpiredAlone(i: nat, v: View)
    requires v.p.loc == WWait && v.p.mode.DataExpired? && v.x.owner.None?
    ensures Reaches(i, v, v.(p := Goto(v.p, Idle)), {})
  {
    hide Alone, Reaches;
    Already(i, v);
    More(i, v, v, {}, Locked(i, v, WTimeout));
    More(i, v, Locked(i, v, WTimeout), {}, v.(p := Goto(v.p, Idle)));
  }

  /** A subscriber that looks for its topic's block waits for the global clients. */
  lemma FindWaits(i: nat, v: View)
    requires At(v, FLock) && v.gowner.None? && v.gclients != 0
    ensures Reaches(i, v, v.(p := v.p.(loc := FCheck, mode := GlobalWait)), {})
  {
    hide Alone, Reaches;
    var w := v.(p := Goto(v.p, FCheck), gowner := Some(i));
    Already(i, v);
    More(i, v, v, {}, w);
    More(i, v, w, {}, v.(p := v.p.(loc := FCheck, mode := GlobalWait)));
  }

  // ---------------------------------------------------------------- what the routines leave

  /** The handle and the slot count the block's replacements from the same origin, so a
      level count means the live block. */
  predicate InStep(h: Handle, x: Slot) {
    h.Handle? && h.ptr - h.resizeCount == x.block.id - x.desc.resizeCount
  }

  /** Nobody uses the slot. */
  predicate Tidy(x: Slot) {
    x.owner.None? && x.clients == 0 && StoreOk(x)
  }

  /** A process resting between routines, with a handle it may have had for long. */
  predicate Rests(p: Proc, x: Slot) {
    p.loc.Idle? && p.mode.Running? && InStep(p.handle, x)
  }

  lemma ResizedFacts(x: Slot, n: nat)
    requires StoreOk(x) && 8 <= n < UINT32
    ensures var y := Resized(x, n);
      && StoreOk(y) && y.desc.size == n && y.published == x.published
      && y.owner == x.owner && y.clients == x.clients
      && y.block.id - y.desc.resizeCount == x.block.id - x.desc.resizeCount
      && y.desc.capacity == (if n > x.desc.capacity then n else x.desc.capacity)
      && (n <= x.desc.capacity ==> y.block == x.block && FreshHandle(y) == FreshHandle(x))
  {
    if n > x.desc.capacity {
      GrowingCountsOnce(x.desc, n);
    }
  }

  lemma PublishedFacts(v: View)
    requires StoreOk(v.x) && IsMessage(v.p.msg) && v.x.owner.None? && v.x.clients == 0
    ensures var p, x, y, m := Published(v).p, v.x, Published(v).x, v.p.msg;
      && Tidy(y) && y.desc.size == |m| && y.block.bytes[..|m|] == m && y.published == x.published + [m]
      && y.block.id - y.desc.resizeCount == x.block.id - x.desc.resizeCount
      && y.desc.capacity == (if |m| > x.desc.capacity then |m| else x.desc.capacity)
      && (|m| <= x.desc.capacity ==> FreshHandle(y) == FreshHandle(x))
      && Rests(p, y) && p.handle == FreshHandle(y) && p.role == v.p.role && p.slot == v.p.slot
      && Published(v).gowner == v.gowner && Published(v).gclients == v.gclients
  {
    ResizedFacts(v.x, |v.p.msg|);
  }
}
