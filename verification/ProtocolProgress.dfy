/** Termination of the routines: the instructions left to a process are bounded by a
    number that its own steps lower and no other step raises. */
module ProtocolProgress {
  import opened Options
  import opened Bytes
  import opened ProtocolModel
  import opened ProtocolControl
  import opened ProtocolData
  import opened ProtocolLiveness

  // ---------------------------------------------------------------- the measure

  /** Locations left until the end of the routine. */
  function Left(l: Loc): nat {
    match l
    case Idle | Thrown => 0
    case RLock => 26 case RCheck => 25 case RStale => 24
    case RLockG1 => 23 case RCheckG1 => 22 case RRefresh => 21 case RUnlockG1 => 20
    case RGrow => 19
    case RLockG2 => 18 case RCheckG2 => 17 case RRecreate => 16 case RUnlockG2 => 15
    case RRecord => 14 case RUnlock => 13
    case SLock => 12 case SCheck => 11 case SLockG => 10 case SInc => 9 case SUnlockG => 8
    case SRefresh => 7 case SWrite => 6 case SLockG2 => 5 case SDec => 4 case SUnlockG2 => 3
    case SSignal => 2 case SUnlock | SUnwind => 1
    case WLock => 17 case WWait => 16 case WInc => 15 case WLockG => 14 case WIncG => 13
    case WUnlockG => 12 case WUnlock => 11 case WRefresh => 10 case WOpen => 9 case WRead => 8
    case WLockG2 => 7 case WDecG => 6 case WUnlockG2 => 5 case WLock2 => 4 case WDec => 3
    case WUnlock2 => 2 case WTimeout => 1
    case FLock => 4 case FCheck => 3 case FConnect => 2 case FUnlock => 1
  }

  /** An instruction that waits has three steps: entering the wait, being notified, leaving. */
  function Waits(m: Mode): nat {
    match m
    case Running => 2
    case LockWait | GlobalWait | DataWait => 1
    case LockWoken | GlobalWoken | DataWoken | DataExpired => 0
  }

  /** Bytes left to move: of the message, or of any message until the size is read. */
  function BytesLeft(p: Proc): nat {
    match p.loc
    case SWrite => if p.pos < |p.msg| then |p.msg| - p.pos else 0
    case WRead => if |p.acc| < p.limit then p.limit - |p.acc| else 0
    case WLock | WWait | WInc | WLockG | WIncG | WUnlockG | WUnlock | WRefresh | WOpen => UINT32
    case RLock | RCheck | RStale | RLockG1 | RCheckG1 | RRefresh | RUnlockG1 | RGrow | RLockG2 | RCheckG2
       | RRecreate | RUnlockG2 | RRecord | RUnlock | SLock | SCheck | SLockG | SInc | SUnlockG | SRefresh => |p.msg|
    case _ => 0
  }

  function Work(p: Proc): nat {
    if p.loc.Idle? || p.loc.Thrown? then 0 else 3 * Left(p.loc) + Waits(p.mode) + BytesLeft(p)
  }

  function TotalWork(ps: seq<Proc>): nat {
    if ps == [] then 0 else TotalWork(ps[..|ps| - 1]) + Work(ps[|ps| - 1])
  }

  // ---------------------------------------------------------------- one step

  lemma SuccIsCloser(l: Loc)
    ensures !InstrAt(l).Local? && !InstrAt(l).Halt? ==>
      Left(Succ(l)) < Left(l) && (l.WWait? ==> Left(WTimeout) < Left(l))
  {
    SuccIsBelow(l);
    OnlyLoopsStay(l);
    if l.WWait? {
      assert Left(WTimeout) < Left(l);
    }
    hide Left, Succ, InstrAt;
  }

  lemma PublisherGetsOn(l: Loc)
    requires RoleOf(l) != Some(Subscriber)
    ensures Succ(l) != l ==> Left(Succ(l)) < Left(l)
  {
  }

  lemma SubscriberGetsOn(l: Loc)
    requires RoleOf(l) == Some(Subscriber)
    ensures Succ(l) != l ==> Left(Succ(l)) < Left(l)
  {
  }

  lemma SuccIsBelow(l: Loc)
    ensures Succ(l) != l ==> Left(Succ(l)) < Left(l)
  {
    hide Succ, Left;
    if RoleOf(l) == Some(Subscriber) {
      SubscriberGetsOn(l);
    } else {
      PublisherGetsOn(l);
    }
  }

  lemma OnlyLoopsStay(l: Loc)
    ensures Succ(l) == l ==> InstrAt(l).Local? || InstrAt(l).Halt?
  {
  }

  lemma SuccMovesNothing(p: Proc)
    ensures !InstrAt(p.loc).Local? ==> BytesLeft(Goto(p, Succ(p.loc))) <= BytesLeft(p)
  {
  }

  lemma LocalWorks(x: Slot, p: Proc)
    requires InstrAt(p.loc).Local? && p.mode.Running? && StoreOk(x)
    ensures Work(LocalStep(x, p).1) < Work(p)
  {
    match p.loc
    case SWrite =>
    case WRead =>
    case WOpen =>
    case _ =>
  }

  lemma ExecWorks(v: View, i: nat)
    requires v.p.mode.Running? && CanStep(v) && !InstrAt(v.p.loc).Local?
    ensures Work(Exec(i, v).v.p) < Work(v.p)
  {
    SuccIsCloser(v.p.loc);
    SuccMovesNothing(v.p);
    hide Left, Succ, BytesLeft;
    var q := Exec(i, v).v.p;
    assert q == Goto(v.p, Succ(v.p.loc)) || (q.loc == v.p.loc && Waits(q.mode) < Waits(v.p.mode));
    if q != Goto(v.p, Succ(v.p.loc)) {
      SameBytesLeft(q, v.p);
    }
  }

  lemma SameBytesLeft(q: Proc, p: Proc)
    requires q.loc == p.loc && q.msg == p.msg && q.pos == p.pos && q.acc == p.acc && q.limit == p.limit
    ensures BytesLeft(q) == BytesLeft(p)
  {
  }

  lemma ReacquireWorks(v: View, i: nat, n: nat)
    requires !v.p.mode.Running? && CanStep(v) && ShapeIn(n, v.p)
    ensures Work(Reacquire(i, v).p) < Work(v.p)
  {
    SuccIsCloser(v.p.loc);
    SuccMovesNothing(v.p);
    assert BytesLeft(Goto(v.p, WTimeout)) == 0;
    hide Left, Succ, BytesLeft;
  }

  /** A step lowers the work of the process that takes it. */
  lemma StepWorks(v: View, i: nat, n: nat)
    requires CanStep(v) && ShapeIn(n, v.p) && StoreOk(v.x)
    ensures Work(Act(v, Step(i)).v.p) < Work(v.p)
  {
    hide Work, StoreOk;
    if !v.p.mode.Running? {
      ReacquireWorks(v, i, n);
    } else if InstrAt(v.p.loc).Local? {
      LocalWorks(v.x, v.p);
    } else {
      ExecWorks(v, i);
    }
  }

  lemma WakeWorks(p: Proc, k: nat, c: Option<Cond>)
    ensures Work(Wake(p, k, c)) <= Work(p)
  {
    hide Left;
  }

  lemma {:induction false} TotalIsMonotone(ps: seq<Proc>, qs: seq<Proc>)
    requires |ps| == |qs| && forall j | 0 <= j < |ps| :: Work(qs[j]) <= Work(ps[j])
    ensures TotalWork(qs) <= TotalWork(ps)
  {
    hide Work;
    if ps != [] {
      TotalIsMonotone(ps[..|ps| - 1], qs[..|qs| - 1]);
    }
  }

  lemma {:induction false} TotalIsStrict(ps: seq<Proc>, qs: seq<Proc>, i: nat)
    requires |ps| == |qs| && forall j | 0 <= j < |ps| :: Work(qs[j]) <= Work(ps[j])
    requires i < |ps| && Work(qs[i]) < Work(ps[i])
    ensures TotalWork(qs) < TotalWork(ps)
  {
    hide Work;
    var n := |ps| - 1;
    if i < n {
      TotalIsStrict(ps[..n], qs[..n], i);
    } else {
      TotalIsMonotone(ps[..n], qs[..n]);
    }
  }

  /** Every step of every process lowers the work of all of them together. */
  lemma StepLowersTotal(s: State, i: nat)
    requires Control(s) && Data(s) && Enabled(s, Step(i))
    ensures TotalWork(Apply(s, Step(i)).procs) < TotalWork(s.procs)
  {
    var v, t := ViewOf(s, i), Apply(s, Step(i));
    assert ShapeIn(|s.slots|, v.p) && StoreOk(v.x);
    StepWorks(v, i, |s.slots|);
    PlacesKept(s, Step(i));
    hide Act, CanAct, CanStep, Data, Apply, Work;
    forall j | 0 <= j < |s.procs|
      ensures Work(t.procs[j]) <= Work(s.procs[j]) && (j == i ==> Work(t.procs[j]) < Work(s.procs[j]))
    {
      var e := Act(v, Step(i));
      OthersAreWoken(s, Step(i), j);
      WakeWorks(if j == i then e.v.p else s.procs[j], v.p.slot, e.signal);
    }
    TotalIsStrict(s.procs, t.procs, i);
  }

  // ---------------------------------------------------------------- schedules

  ghost predicate OnlySteps(actions: seq<Action>) {
    forall c | 0 <= c < |actions| :: actions[c].Step?
  }

  /** Any schedule of steps, without a routine starting or a timed wait expiring, is at
      most as long as the work there is at its beginning. */
  lemma {:induction false} SchedulesAreBounded(init: State, before: seq<Action>, s: State, steps: seq<Action>, t: State)
    requires Init(init) && Run(init, before) == Some(s)
    requires OnlySteps(steps) && Run(s, steps) == Some(t)
    ensures Control(t) && Data(t)
    ensures |steps| + TotalWork(t.procs) <= TotalWork(s.procs)
    decreases |steps|
  {
    hide Control, Data, Init, Enabled, Apply, TotalWork;
    if steps == [] {
      DataAlways(init, before);
    } else {
      var front, a := steps[..|steps| - 1], steps[|steps| - 1];
      var u := Run(s, front).value;
      SchedulesAreBounded(init, before, s, front, u);
      assert a == Step(a.i);
      StepLowersTotal(u, a.i);
      DataStep(u, a);
    }
  }

  /** Steps taken one after the other, whoever takes them, come to an end. */
  lemma {:induction false} StepsRunOut(init: State, before: seq<Action>, s: State, steps: seq<Action>, t: State)
    returns (all: seq<Action>, u: State)
    requires Init(init) && Run(init, before) == Some(s)
    requires OnlySteps(steps) && Run(s, steps) == Some(t)
    ensures OnlySteps(all) && Run(s, all) == Some(u) && !CanProceed(u)
    decreases TotalWork(t.procs)
  {
    hide Control, Data, Init, Enabled, Apply, TotalWork;
    if j :| 0 <= j < |t.procs| && Enabled(t, Step(j)) {
      SchedulesAreBounded(init, before, s, steps, t);
      StepLowersTotal(t, j);
      var more := steps + [Step(j)];
      assert more[..|more| - 1] == steps;
      all, u := StepsRunOut(init, before, s, more, Apply(t, Step(j)));
    } else {
      all, u := steps, t;
    }
  }
}
