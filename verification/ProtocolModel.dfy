/** The shared-memory block protocol as a step relation over any number of
    publishers, subscribers and topics.

    Every process runs one of three routines of the source, laid out as a list of
    locations: `publish_msg` (reallocateBlock, locations R*, then serialize,
    locations S*), `wait_data` (locations W*) and `findHandle` (locations F*).
    A location names the instruction the process executes next.  A step is one
    mutex operation, one counter update, one wait or notify, one test, or one
    access to the shared slot; the payload moves one byte a step. */
module ProtocolModel {
  import opened Options
  import opened Bytes
  import opened Descriptor

  // ---------------------------------------------------------------- state

  /** A shared block; the identity stands for its address and is new each time
      the block is destroyed and constructed again. */
  datatype Block = Block(id: nat, bytes: Bytes)

  datatype Handle = NoHandle | Handle(ptr: nat, resizeCount: nat)

  datatype Role = Publisher | Subscriber

  datatype Mode =
    | Running
    | LockWait | LockWoken                   // check_clients: waiting on lockcond, notified
    | GlobalWait | GlobalWoken               // check_global_clients: waiting on cond, notified
    | DataWait | DataWoken | DataExpired     // timed_wait on datacond

  datatype Loc =
    | Idle
    // reallocateBlock
    | RLock | RCheck | RStale
    | RLockG1 | RCheckG1 | RRefresh | RUnlockG1
    | RGrow
    | RLockG2 | RCheckG2 | RRecreate | RUnlockG2
    | RRecord | RUnlock
    // serialize
    | SLock | SCheck | SLockG | SInc | SUnlockG
    | SRefresh | SWrite | SLockG2 | SDec | SUnlockG2
    | SSignal | SUnlock
    | SUnwind | Thrown                       // StreamOverrunException leaves serialize
    // wait_data
    | WLock | WWait | WInc | WLockG | WIncG | WUnlockG | WUnlock
    | WRefresh | WOpen | WRead
    | WLockG2 | WDecG | WUnlockG2
    | WLock2 | WDec | WUnlock2
    | WTimeout
    // findHandle
    | FLock | FCheck | FConnect | FUnlock

  /** A process. `msg`/`pos` are the message being published and the number of
      bytes written; `limit`/`acc` the length and the bytes read so far by a
      receiver. `got` records the delivered byte strings, `seen` the number of
      the newest complete message on the slot at each delivery. */
  datatype Proc = Proc(role: Role, slot: nat, loc: Loc, mode: Mode, handle: Handle,
                       msg: Bytes, pos: nat, limit: nat, acc: Bytes,
                       got: seq<Bytes>, seen: seq<int>)

  /** A topic slot: the descriptor with its mutex and counter, its block, and the
      record of the messages whose last byte has been written. */
  datatype Slot = Slot(owner: Option<nat>, clients: int, desc: Desc, block: Block, published: seq<Bytes>)

  datatype State = State(procs: seq<Proc>, slots: seq<Slot>, gowner: Option<nat>, gclients: int)

  // ---------------------------------------------------------------- code

  datatype Instr =
    | LockSlot | UnlockSlot | LockGlobal | UnlockGlobal
    | CheckSlot | CheckGlobal
    | IncSlot | DecSlot | IncGlobal | DecGlobal
    | WaitData | SignalData
    | Local
    | Halt

  function InstrAt(l: Loc): Instr {
    match l
    case Idle | Thrown => Halt
    case RLock | SLock | WLock | WLock2 => LockSlot
    case RUnlock | SUnlock | SUnwind | WUnlock | WUnlock2 | WTimeout => UnlockSlot
    case RLockG1 | RLockG2 | SLockG | SLockG2 | WLockG | WLockG2 | FLock => LockGlobal
    case RUnlockG1 | RUnlockG2 | SUnlockG | SUnlockG2 | WUnlockG | WUnlockG2 | FUnlock => UnlockGlobal
    case RCheck | SCheck => CheckSlot
    case RCheckG1 | RCheckG2 | FCheck => CheckGlobal
    case SInc | WIncG => IncGlobal
    case SDec | WDecG => DecGlobal
    case WInc => IncSlot
    case WDec => DecSlot
    case WWait => WaitData
    case SSignal => SignalData
    case RStale | RRefresh | RGrow | RRecreate | RRecord | SRefresh | SWrite
       | WRefresh | WOpen | WRead | FConnect => Local
  }

  /** The location after an instruction that does not branch. */
  function Succ(l: Loc): Loc {
    match l
    case RLock => RCheck case RCheck => RStale
    case RLockG1 => RCheckG1 case RCheckG1 => RRefresh case RRefresh => RUnlockG1 case RUnlockG1 => RGrow
    case RLockG2 => RCheckG2 case RCheckG2 => RRecreate case RRecreate => RUnlockG2 case RUnlockG2 => RUnlock
    case RRecord => RUnlock case RUnlock => SLock
    case SLock => SCheck case SCheck => SLockG case SLockG => SInc case SInc => SUnlockG
    case SUnlockG => SRefresh case SRefresh => SWrite
    case SLockG2 => SDec case SDec => SUnlockG2 case SUnlockG2 => SSignal case SSignal => SUnlock
    case SUnlock => Idle case SUnwind => Thrown
    case WLock => WWait case WWait => WInc case WInc => WLockG case WLockG => WIncG case WIncG => WUnlockG
    case WUnlockG => WUnlock case WUnlock => WRefresh
    case WRefresh => WOpen case WOpen => WRead
    case WLockG2 => WDecG case WDecG => WUnlockG2 case WUnlockG2 => WLock2
    case WLock2 => WDec case WDec => WUnlock2 case WUnlock2 => Idle case WTimeout => Idle
    case FLock => FCheck case FCheck => FConnect case FConnect => FUnlock case FUnlock => Idle
    case Idle | Thrown | RStale | RGrow | SWrite | WRead => l
  }

  // ---------------------------------------------------------------- data instructions

  /** The handle obtained by looking the slot's block up again. */
  function FreshHandle(x: Slot): Handle {
    Handle(x.block.id, x.desc.resizeCount)
  }

  function Refreshed(h: Handle, x: Slot): Handle {
    if h.Handle? && h.resizeCount == x.desc.resizeCount then h else FreshHandle(x)
  }

  predicate PointsAtLiveBlock(h: Handle, x: Slot) {
    h.Handle? && h.ptr == x.block.id
  }

  /** destroy, find_or_construct and recordSize(size, size). */
  function Recreated(x: Slot, n: nat): Slot {
    x.(desc := RecordSize(x.desc, n, n), block := Block(x.block.id + 1, Zeros(n)))
  }

  /** A store through a handle; one through a dangling pointer leaves the live block alone. */
  function Stored(x: Slot, h: Handle, pos: nat, b: byte): Slot {
    if PointsAtLiveBlock(h, x) && pos < |x.block.bytes|
    then x.(block := x.block.(bytes := x.block.bytes[pos := b]))
    else x
  }

  function Loaded(x: Slot, h: Handle, pos: nat): byte {
    if PointsAtLiveBlock(h, x) && pos < |x.block.bytes| then x.block.bytes[pos] else 0
  }

  /** `Stream::advance` throws before the timestamp or before the payload is copied
      when that field does not fit the stream of `size_` bytes. */
  predicate Overruns(pos: nat, len: nat, size: nat) {
    (pos == 0 && size < 8) || (pos == 8 && len > size)
  }

  function Goto(p: Proc, l: Loc): Proc {
    p.(loc := l, mode := Running)
  }

  /** The effect of a data instruction on the slot and on the process. */
  function LocalStep(x: Slot, p: Proc): (Slot, Proc) {
    match p.loc
    case RStale =>
      (x, Goto(p, if p.handle.Handle? && p.handle.resizeCount == x.desc.resizeCount then RGrow else RLockG1))
    case RRefresh => (x, Goto(p, RUnlockG1).(handle := FreshHandle(x)))
    case RGrow => (x, Goto(p, if |p.msg| > x.desc.capacity then RLockG2 else RRecord))
    case RRecreate =>
      var y := Recreated(x, |p.msg|);
      (y, Goto(p, RUnlockG2).(handle := FreshHandle(y)))
    case RRecord => (x.(desc := RecordSize(x.desc, |p.msg|, 0)), Goto(p, RUnlock))
    case SRefresh => (x, Goto(p, SWrite).(handle := Refreshed(p.handle, x), pos := 0))
    case SWrite =>
      if p.pos >= |p.msg| then (x.(published := x.published + [p.msg]), Goto(p, SLockG2))
      else if Overruns(p.pos, |p.msg|, x.desc.size) then (x, Goto(p, SUnwind))
      else (Stored(x, p.handle, p.pos, p.msg[p.pos]), p.(pos := p.pos + 1))
    case WRefresh => (x, Goto(p, WOpen).(handle := Refreshed(p.handle, x)))
    case WOpen => (x, Goto(p, WRead).(limit := x.desc.size, acc := []))
    case WRead =>
      if |p.acc| >= p.limit
      then (x, Goto(p, WLockG2).(got := p.got + [p.acc], seen := p.seen + [|x.published| - 1]))
      else (x, p.(acc := p.acc + [Loaded(x, p.handle, |p.acc|)]))
    case FConnect => (x, Goto(p, FUnlock).(handle := FreshHandle(x)))
    case _ => (x, p)
  }

  // ---------------------------------------------------------------- steps

  /** `BeginX` starts a routine, `Expire` lets a timed wait run out, `Step` executes
      the process's next instruction or takes back the mutex of an ended wait. */
  datatype Action =
    | BeginPublish(i: nat, m: Bytes)
    | BeginReceive(i: nat)
    | BeginFind(i: nat)
    | Expire(i: nat)
    | Step(i: nat)

  /** A message is a serialized RawMessage: an 8-byte timestamp and a payload, its
      length a 32-bit number. */
  predicate IsMessage(m: Bytes) {
    8 <= |m| < UINT32
  }

  /** What one step of a process can touch: the process, its slot and the global lock. */
  datatype View = View(p: Proc, x: Slot, gowner: Option<nat>, gclients: int)

  datatype Cond = LockCond | DataCond | GlobalCond

  /** The outcome of a step: the new view and the condition it notifies, if any. */
  datatype Effect = Effect(v: View, signal: Option<Cond>)

  predicate ValidProc(s: State, i: nat) {
    i < |s.procs| && s.procs[i].slot < |s.slots|
  }

  function ViewOf(s: State, i: nat): View
    requires ValidProc(s, i)
  {
    View(s.procs[i], s.slots[s.procs[i].slot], s.gowner, s.gclients)
  }

  predicate CanStep(v: View) {
    match v.p.mode
    case Running =>
      (match InstrAt(v.p.loc)
       case LockSlot => v.x.owner.None?
       case LockGlobal => v.gowner.None?
       case Halt => false
       case _ => true)
    case LockWoken | DataWoken | DataExpired => v.x.owner.None?
    case GlobalWoken => v.gowner.None?
    case LockWait | GlobalWait | DataWait => false
  }

  predicate CanAct(v: View, a: Action) {
    match a
    case BeginPublish(_, m) => v.p.role.Publisher? && v.p.loc.Idle? && IsMessage(m)
    case BeginReceive(_) => v.p.role.Subscriber? && v.p.loc.Idle? && v.p.handle.Handle?
    case BeginFind(_) => v.p.role.Subscriber? && v.p.loc.Idle? && v.p.handle.NoHandle?
    case Expire(_) => v.p.mode.DataWait?
    case Step(_) => CanStep(v)
  }

  /** One instruction of the running process i. */
  function Exec(i: nat, v: View): Effect {
    var p, x := v.p, v.x;
    var next := v.(p := Goto(p, Succ(p.loc)));
    match InstrAt(p.loc)
    case LockSlot => Effect(next.(x := x.(owner := Some(i))), None)
    case UnlockSlot => Effect(next.(x := x.(owner := None)), None)
    case LockGlobal => Effect(next.(gowner := Some(i)), None)
    case UnlockGlobal => Effect(next.(gowner := None), None)
    case CheckSlot =>
      if x.clients != 0
      then Effect(v.(p := p.(mode := LockWait), x := x.(owner := None)), None)
      else Effect(next, None)
    case CheckGlobal =>
      if v.gclients != 0
      then Effect(v.(p := p.(mode := GlobalWait), gowner := None), None)
      else Effect(next, None)
    case IncSlot => Effect(next.(x := x.(clients := x.clients + 1)), None)
    case DecSlot =>
      Effect(next.(x := x.(clients := x.clients - 1)), if x.clients - 1 == 0 then Some(LockCond) else None)
    case IncGlobal => Effect(next.(gclients := v.gclients + 1), None)
    case DecGlobal =>
      Effect(next.(gclients := v.gclients - 1), if v.gclients - 1 == 0 then Some(GlobalCond) else None)
    case WaitData => Effect(v.(p := p.(mode := DataWait), x := x.(owner := None)), None)
    case SignalData => Effect(next, Some(DataCond))
    case Local =>
      var (y, q) := LocalStep(x, p);
      Effect(v.(p := q, x := y), None)
    case Halt => Effect(v, None)
  }

  /** A process whose wait has ended takes the mutex back and leaves the wait; the
      `if` around each wait does not look at the counter again. */
  function Reacquire(i: nat, v: View): View {
    match v.p.mode
    case LockWoken | DataWoken => v.(p := Goto(v.p, Succ(v.p.loc)), x := v.x.(owner := Some(i)))
    case DataExpired => v.(p := Goto(v.p, WTimeout), x := v.x.(owner := Some(i)))
    case GlobalWoken => v.(p := Goto(v.p, Succ(v.p.loc)), gowner := Some(i))
    case _ => v
  }

  function Act(v: View, a: Action): Effect {
    match a
    case BeginPublish(_, m) => Effect(v.(p := Goto(v.p, RLock).(msg := m)), None)
    case BeginReceive(_) => Effect(v.(p := Goto(v.p, WLock)), None)
    case BeginFind(_) => Effect(v.(p := Goto(v.p, FLock)), None)
    case Expire(_) => Effect(v.(p := v.p.(mode := DataExpired)), None)
    case Step(i) => if v.p.mode.Running? then Exec(i, v) else Effect(Reacquire(i, v), None)
  }

  /** notify_all on a condition of slot k ends the wait of every process waiting there. */
  function Wake(p: Proc, k: nat, c: Option<Cond>): Proc {
    match c
    case None => p
    case Some(LockCond) => if p.mode.LockWait? && p.slot == k then p.(mode := LockWoken) else p
    case Some(DataCond) => if p.mode.DataWait? && p.slot == k then p.(mode := DataWoken) else p
    case Some(GlobalCond) => if p.mode.GlobalWait? then p.(mode := GlobalWoken) else p
  }

  function Notify(ps: seq<Proc>, k: nat, c: Option<Cond>): (r: seq<Proc>)
    ensures |r| == |ps| && forall j | 0 <= j < |ps| :: r[j] == Wake(ps[j], k, c)
  {
    seq(|ps|, j requires 0 <= j < |ps| => Wake(ps[j], k, c))
  }

  predicate Enabled(s: State, a: Action) {
    ValidProc(s, a.i) && CanAct(ViewOf(s, a.i), a)
  }

  /** The effect of a step of process i on the whole state. */
  function Install(s: State, i: nat, e: Effect): State
    requires ValidProc(s, i)
  {
    var k := s.procs[i].slot;
    State(Notify(s.procs[i := e.v.p], k, e.signal), s.slots[k := e.v.x], e.v.gowner, e.v.gclients)
  }

  function Apply(s: State, a: Action): State
    requires Enabled(s, a)
  {
    Install(s, a.i, Act(ViewOf(s, a.i), a))
  }

  // ---------------------------------------------------------------- runs

  /** Before any routine has started: no mutex is held, no client is registered,
      every slot is an allocated one, and every publisher has connected. */
  predicate InitProc(s: State, p: Proc) {
    && p.slot < |s.slots|
    && p.loc.Idle? && p.mode.Running?
    && (p.role.Publisher? ==> p.handle.Handle?)
    && (p.handle.Handle? ==> p.handle == FreshHandle(s.slots[p.slot]))
    && p.got == [] && p.seen == []
  }

  predicate InitSlot(x: Slot) {
    && x.owner.None? && x.clients == 0
    && StoreOk(x) && x.published == []
  }

  predicate StoreOk(x: Slot) {
    && DescOk(x.desc) && x.desc.active
    && 8 <= x.desc.size && x.desc.capacity == |x.block.bytes|
  }

  predicate Init(s: State) {
    && s.gowner.None? && s.gclients == 0
    && (forall k | 0 <= k < |s.slots| :: InitSlot(s.slots[k]))
    && (forall i | 0 <= i < |s.procs| :: InitProc(s, s.procs[i]))
  }

  /** The state after the actions, if each was enabled in its turn. */
  function Run(s: State, actions: seq<Action>): Option<State>
    decreases |actions|
  {
    if actions == [] then Some(s) else
    match Run(s, actions[..|actions| - 1])
    case None => None
    case Some(t) =>
      var a := actions[|actions| - 1];
      if Enabled(t, a) then Some(Apply(t, a)) else None
  }

  lemma {:induction false} RunTwice(s: State, first: seq<Action>, t: State, second: seq<Action>)
    requires Run(s, first) == Some(t)
    ensures Run(s, first + second) == Run(t, second)
    decreases |second|
  {
    hide Enabled, Apply;
    if second == [] {
      assert first + second == first;
    } else {
      var front := second[..|second| - 1];
      RunTwice(s, first, t, front);
      assert (first + second)[..|first + second| - 1] == first + front;
    }
  }
}
