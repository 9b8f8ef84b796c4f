/** The nucleus as a state machine on values: the state, one function per
    kernel step, and the machine that runs them. Processes are named by their
    index in procTable, semaphores by their address.

    The steps do what the C code does, also where that departs from its
    comments; the outcome records how control leaves the kernel. */
module Nucleus {
  import opened Seqs
  import opened Forest

  type Addr = nat

  // NULL and MAXINT are the same 32-bit value.
  const MAXINT: Addr := 0xFFFF_FFFF
  const NULL: Addr := 0xFFFF_FFFF

  const DEVICESEMNUM: nat := 49
  const DEVSPERLINE: nat := 8
  const DISKINT: nat := 3
  const TERMINT: nat := 7
  const READY: nat := 1
  const CLOCKSEM: nat := 48

  /** n is MAXPROC, devSemTable the address of devSemTable[0]. */
  datatype Config = Config(n: nat, devSemTable: Addr)

  /** A processor state; `rest` stands for every register except v0. */
  datatype Cpu = Cpu(v0: int, rest: int)

  datatype State = State(
    cfg: Config,
    free: seq<Pid>,                 // pcbFree list, head first
    ready: seq<Pid>,                // readyQue, head first
    blocked: map<Addr, seq<Pid>>,   // the ASL: process queue of each active semaphore
    semAdd: seq<Addr>,              // p_semAdd
    saved: seq<Cpu>,                // p_s
    tree: Forest,
    sem: map<Addr, int>,            // memory words used as semaphores
    current: Option<Pid>,           // currentProcess
    waitFlag: bool,
    processCount: int,
    softBlockCount: int)

  /** How control leaves a kernel entry point.
      Load: LDST of that state. Return: the handler returns without an LDST,
      with that state in the old area. Failed: the same, from a SYS 1 that found
      no pcb; the caller is taken to go on with that state. Fault: the code goes
      through a NULL pointer; nothing is said about memory after that. */
  datatype Outcome =
    | Load(cpu: Cpu) | Wait | Halt | Panic
    | Failed(cpu: Cpu) | Return(cpu: Cpu) | Fault

  // ---- semaphores and their queues --------------------------------------

  /** A word never written reads as 0. */
  function Val(sem: map<Addr, int>, a: Addr): int {
    if a in sem then sem[a] else 0
  }

  function DevAddr(c: Config, i: nat): Addr {
    c.devSemTable + 4 * i
  }

  predicate IsDev(c: Config, a: Addr) {
    exists i :: 0 <= i < DEVICESEMNUM && DevAddr(c, i) == a
  }

  function QueueAt(blocked: map<Addr, seq<Pid>>, a: Addr): seq<Pid> {
    if a in blocked then blocked[a] else []
  }

  function SetQueue(blocked: map<Addr, seq<Pid>>, a: Addr, q: seq<Pid>): map<Addr, seq<Pid>> {
    if q == [] then blocked - {a} else blocked[a := q]
  }

  /** The number of processes on the first k device and clock queues. */
  ghost function DevWaiters(c: Config, blocked: map<Addr, seq<Pid>>, k: nat): nat {
    if k == 0 then 0
    else DevWaiters(c, blocked, k - 1) + |QueueAt(blocked, DevAddr(c, k - 1))|
  }

  function GetSemArrayNum(line: int, dev: int, termOffset: int): int {
    (line - 3) * 8 + dev + termOffset
  }

  // ---- the ASL operations on the map ------------------------------------

  function InsertBlocked(s: State, a: Addr, p: Pid): State
    requires p < |s.semAdd|
  {
    s.(blocked := s.blocked[a := QueueAt(s.blocked, a) + [p]],
       semAdd := s.semAdd[p := a])
  }

  /** p is the element the guard of outBlocked looks at: the one after the
      head, which in a queue of one is the head itself. */
  predicate AfterHead(q: seq<Pid>, p: Pid)
    requires q != []
  {
    if |q| == 1 then q[0] == p else q[1] == p
  }

  /** outBlocked as coded: if p is the element after the head, the descriptor
      is freed, whatever else is still queued there. */
  function OutBlocked(blocked: map<Addr, seq<Pid>>, a: Addr, p: Pid): map<Addr, seq<Pid>>
    requires a in blocked && blocked[a] != []
  {
    if AfterHead(blocked[a], p) then blocked - {a}
    else blocked[a := Without(blocked[a], {p})]
  }

  /** outBlocked as its comment describes it. */
  function OutBlockedIntended(blocked: map<Addr, seq<Pid>>, a: Addr, p: Pid): map<Addr, seq<Pid>>
    requires a in blocked
  {
    SetQueue(blocked, a, Without(blocked[a], {p}))
  }

  // ---- the scheduler -----------------------------------------------------

  function Scheduler(s: State): (State, Outcome)
    requires forall p :: p in s.ready ==> p < |s.saved|
  {
    if s.ready == [] then
      if s.processCount == 0 then (s, Halt)
      else if s.softBlockCount == 0 then (s, Panic)
      else (s.(waitFlag := true), Wait)
    else
      var p := s.ready[0];
      assert p in s.ready;
      (s.(ready := s.ready[1..], waitFlag := false, current := Some(p)), Load(s.saved[p]))
  }

  // ---- the invariant -----------------------------------------------------

  ghost predicate Shape(s: State) {
    && s.cfg.n >= 1
    && 0 < s.cfg.devSemTable && DevAddr(s.cfg, DEVICESEMNUM) <= MAXINT
    && |s.semAdd| == |s.saved| == |s.tree.kids| == s.cfg.n
  }

  /** The free list, the ready queue, the semaphore queues and the processor share
      no pcb, and p_semAdd names the queue a pcb is on. */
  ghost predicate Separate(s: State, run: Option<Pid>)
    requires Shape(s)
  {
    && NoDup(s.free) && NoDup(s.ready)
    && (forall x :: x in s.free ==> x < s.cfg.n && s.semAdd[x] == NULL && x !in s.ready)
    && (forall x :: x in s.ready ==> x < s.cfg.n && s.semAdd[x] == NULL)
    && (forall a :: a in s.blocked ==> 0 < a < MAXINT && s.blocked[a] != [] && NoDup(s.blocked[a]))
    && (forall a, x {:trigger x in s.blocked[a]} :: a in s.blocked && x in s.blocked[a] ==>
          x < s.cfg.n && s.semAdd[x] == a)
    && (run.Some? ==>
          run.value < s.cfg.n && s.semAdd[run.value] == NULL && run.value !in s.free && run.value !in s.ready)
  }

  /** Every pcb is in exactly one place: the free list, the ready queue, the
      queue of the semaphore in its p_semAdd, or the processor. */
  ghost predicate Placed(s: State, run: Option<Pid>)
    requires Shape(s)
  {
    && Separate(s, run)
    && (forall x :: 0 <= x < s.cfg.n ==>
          x in s.free || x in s.ready || run == Some(x) ||
          (s.semAdd[x] in s.blocked && x in s.blocked[s.semAdd[x]]))
  }

  /** The two counters agree with the queues. */
  ghost predicate Counted(s: State) {
    && s.processCount == s.cfg.n - |s.free|
    && s.softBlockCount == DevWaiters(s.cfg, s.blocked, DEVICESEMNUM)
  }

  /** Semaphore values agree with the queues. */
  ghost predicate Valued(s: State) {
    && (forall a :: 0 < a < MAXINT && !IsDev(s.cfg, a) ==>
          |QueueAt(s.blocked, a)| == if Val(s.sem, a) < 0 then -Val(s.sem, a) else 0)
    && (forall i :: 0 <= i < DEVICESEMNUM ==>
          Val(s.sem, DevAddr(s.cfg, i)) <= -|QueueAt(s.blocked, DevAddr(s.cfg, i))|)
  }

  /** The forest is sound and free pcbs have no relatives. */
  ghost predicate Related(s: State)
    requires Shape(s)
  {
    && Sound(s.tree)
    && (forall x :: x in s.free && x < s.cfg.n ==> s.tree.kids[x] == [] && s.tree.parent[x] == None)
  }

  /** What holds inside the kernel, with `run` the process that has the processor, if any. */
  ghost predicate Core(s: State, run: Option<Pid>) {
    Shape(s) && Placed(s, run) && Counted(s) && Valued(s) && Related(s)
  }

  /** While the machine waits no process runs; currentProcess is then NULL or
      still points at a pcb that a kill has freed. */
  function Runner(s: State): Option<Pid> {
    if s.waitFlag then None else s.current
  }

  /** currentProcess, if not NULL, points at a free pcb. */
  ghost predicate Stale(s: State) {
    s.current.Some? ==> s.current.value in s.free
  }

  /** What holds whenever the kernel is left by Load, Wait or Failed. */
  ghost predicate Inv(s: State) {
    && Core(s, Runner(s))
    && s.processCount >= 1
    && (!s.waitFlag ==> s.current.Some?)
    && (s.waitFlag ==> Stale(s))
  }

  // ---- SYS 1 -------------------------------------------------------------

  function CreateProcess(s: State, area: Cpu, init: Cpu): (State, Outcome)
    requires Inv(s) && !s.waitFlag
  {
    if s.free == [] then (s, Failed(area.(v0 := -1)))
    else
      var p := s.free[0];
      assert p in s.free;
      (s.(free := s.free[1..],
          ready := s.ready + [p],
          saved := s.saved[p := init],
          processCount := s.processCount + 1,
          tree := Insert(s.tree, s.current.value, p)),
       Load(area.(v0 := 0)))
  }

  // ---- SYS 2 -------------------------------------------------------------

  /** What terminateRecursively does to v once v's children are gone, apart
      from the tree links. If v is not found on the queue of its semaphore, NULL
      goes into freePcb (ReachesNull); the state is then left as it is. */
  function KillOne(s: State, v: Pid): (r: State)
    requires v < |s.semAdd|
    ensures |r.semAdd| == |s.semAdd|
  {
    if s.semAdd[v] != NULL then
      var a := s.semAdd[v];
      var t := if IsDev(s.cfg, a)
               then s.(softBlockCount := s.softBlockCount - 1)
               else s.(sem := s.sem[a := Val(s.sem, a) + 1]);
      if v in QueueAt(s.blocked, a)
      then t.(blocked := OutBlocked(s.blocked, a, v),
              semAdd := s.semAdd[v := NULL],
              free := s.free + [v],
              processCount := s.processCount - 1)
      else s
    else if s.current == Some(v) then
      s.(free := s.free + [v], processCount := s.processCount - 1)
    else if v in s.ready then
      s.(ready := Without(s.ready, {v}), free := s.free + [v], processCount := s.processCount - 1)
    else s
  }

  function KillAll(s: State, vs: seq<Pid>): (r: State)
    requires forall v :: v in vs ==> v < |s.semAdd|
    ensures |r.semAdd| == |s.semAdd| && r.saved == s.saved && r.tree == s.tree && r.cfg == s.cfg
    ensures forall x :: x in r.ready ==> x in s.ready
    decreases |vs|
  {
    if vs == [] then s
    else assert vs[0] in vs; assert forall v :: v in vs[1..] ==> v in vs; KillAll(KillOne(s, vs[0]), vs[1..])
  }

  /** outBlocked finds v, if v is blocked at all. */
  predicate Found(s: State, v: Pid)
    requires v < |s.semAdd|
  {
    s.semAdd[v] == NULL || v in QueueAt(s.blocked, s.semAdd[v])
  }

  /** Killing vs in this order hands the NULL of a failing outBlocked to freePcb. */
  predicate ReachesNull(s: State, vs: seq<Pid>)
    requires forall v :: v in vs ==> v < |s.semAdd|
    decreases |vs|
  {
    vs != [] &&
    (assert vs[0] in vs; assert forall v :: v in vs[1..] ==> v in vs;
     !Found(s, vs[0]) || ReachesNull(KillOne(s, vs[0]), vs[1..]))
  }

  predicate Second(q: seq<Pid>, p: Pid) {
    |q| >= 2 && q[1] == p
  }

  /** The j-th victim stands second in its queue once the victims before it have left. */
  ghost predicate MetSecond(s: State, vs: seq<Pid>, j: nat)
    requires j < |vs| && forall v :: v in vs ==> v < |s.semAdd|
  {
    assert vs[j] in vs;
    Second(Without(QueueAt(s.blocked, s.semAdd[vs[j]]), Elems(vs[..j])), vs[j])
  }

  /** Some victim is met second, so that outBlocked frees a descriptor in use. */
  ghost predicate Drops(s: State, vs: seq<Pid>)
    requires forall v :: v in vs ==> v < |s.semAdd|
  {
    exists j: nat :: j < |vs| && MetSecond(s, vs, j)
  }

  /** Some victim is met second, and a later victim waits on the same semaphore. */
  ghost predicate Strands(s: State, vs: seq<Pid>)
    requires forall v :: v in vs ==> v < |s.semAdd|
  {
    exists j: nat, k: nat :: j < k < |vs| && MetSecond(s, vs, j) && SameSem(s, vs[j], vs[k])
  }

  predicate SameSem(s: State, v: Pid, w: Pid) {
    v < |s.semAdd| && w < |s.semAdd| && s.semAdd[v] == s.semAdd[w]
  }

  /** terminateRecursively: the subtree of p is cut off and killed in postorder. */
  ghost function Terminate(s: State, p: Pid): State
    requires Shape(s) && Sound(s.tree) && p < s.cfg.n
  {
    PostInRange(s.tree, p);
    KillAll(s, Post(s.tree, p)).(tree := Prune(s.tree, Elems(Post(s.tree, p))))
  }

  /** Killing the subtree of p frees a descriptor in use. */
  ghost predicate KillDrops(s: State, p: Pid)
    requires Shape(s) && Sound(s.tree) && p < s.cfg.n
  {
    PostInRange(s.tree, p);
    Drops(s, Post(s.tree, p))
  }

  /** Killing the subtree of p frees a descriptor in use, and later meets a victim left there. */
  ghost predicate KillStrands(s: State, p: Pid)
    requires Shape(s) && Sound(s.tree) && p < s.cfg.n
  {
    PostInRange(s.tree, p);
    Strands(s, Post(s.tree, p))
  }

  ghost predicate KillNull(s: State, p: Pid)
    requires Shape(s) && Sound(s.tree) && p < s.cfg.n
  {
    PostInRange(s.tree, p);
    ReachesNull(s, Post(s.tree, p))
  }

  /** The process has a parent, and no victim of its subtree is met second in a queue. */
  ghost predicate CanTerminate(s: State, p: Pid)
    requires Shape(s) && Sound(s.tree) && p < s.cfg.n
  {
    s.tree.parent[p].Some? && !KillDrops(s, p)
  }

  /** SYS 2. A process without a parent hands the NULL of outChild to freePcb. */
  ghost function TerminateProcess(s: State): (State, Outcome)
    requires Inv(s) && !s.waitFlag
  {
    var p := s.current.value;
    if s.tree.parent[p] == None || KillNull(s, p) then (s, Fault)
    else
      TerminateSched(s, p);
      Scheduler(Terminate(s, p))
  }

  lemma TerminateSched(s: State, p: Pid)
    requires Shape(s) && Sound(s.tree) && p < s.cfg.n && forall x :: x in s.ready ==> x < s.cfg.n
    ensures forall x :: x in Terminate(s, p).ready ==> x < |Terminate(s, p).saved|
  {
  }

  // ---- SYS 3, SYS 4 ------------------------------------------------------

  /** removeBlocked followed by insertion on the ready queue. */
  function Wake(s: State, a: Addr): State
    requires a in s.blocked && s.blocked[a] != [] && s.blocked[a][0] < |s.semAdd|
  {
    s.(blocked := SetQueue(s.blocked, a, s.blocked[a][1..]),
       semAdd := s.semAdd[s.blocked[a][0] := NULL],
       ready := s.ready + [s.blocked[a][0]])
  }

  function AddSem(s: State, a: Addr, d: int): State {
    s.(sem := s.sem[a := Val(s.sem, a) + d])
  }

  function Verhogen(s: State, a: Addr, area: Cpu): (State, Outcome)
    requires Inv(s)
  {
    var t := AddSem(s, a, 1);
    if Val(t.sem, a) <= 0 && a in s.blocked then
      assert s.blocked[a][0] in s.blocked[a];
      (Wake(t, a), Load(area))
    else (t, Load(area))
  }

  /** The running process saves `area` and joins the queue of a. */
  function Block(s: State, a: Addr, area: Cpu): State
    requires s.current.Some? && s.current.value < |s.semAdd| == |s.saved|
  {
    InsertBlocked(s.(saved := s.saved[s.current.value := area]), a, s.current.value).(current := None)
  }

  function Passeren(s: State, a: Addr, area: Cpu): (State, Outcome)
    requires Inv(s) && !s.waitFlag
  {
    var t := AddSem(s, a, -1);
    if Val(t.sem, a) < 0 then Scheduler(Block(t, a, area))
    else (t, Load(area))
  }

  // ---- SYS 7, SYS 8 ------------------------------------------------------

  function WaitForClock(s: State, area: Cpu): (State, Outcome)
    requires Inv(s) && !s.waitFlag
  {
    var a := DevAddr(s.cfg, CLOCKSEM);
    var t := AddSem(s, a, -1);
    if Val(t.sem, a) < 0
    then Scheduler(Block(t, a, area).(softBlockCount := s.softBlockCount + 1))
    else (t, Load(area))
  }

  /** The semaphore SYS 8 waits on. */
  function WaitIndex(line: int, dev: int, termRead: int): int {
    GetSemArrayNum(line, dev, if line == TERMINT && termRead == 1 then 8 else 0)
  }

  predicate RealDevice(line: int, dev: int) {
    DISKINT <= line <= TERMINT && 0 <= dev < DEVSPERLINE
  }

  function WaitForIODevice(s: State, line: int, dev: int, termRead: int, area: Cpu): (State, Outcome)
    requires Inv(s) && !s.waitFlag && RealDevice(line, dev)
  {
    var a := DevAddr(s.cfg, WaitIndex(line, dev, termRead));
    var t := AddSem(s, a, -1);
    if Val(t.sem, a) < 0
    then Scheduler(Block(t, a, area).(softBlockCount := s.softBlockCount + 1))
    else (t.(saved := s.saved[s.current.value := area]), Return(area))
  }

  // ---- interrupts --------------------------------------------------------

  /** ackTerminal: the status it returns, from the two status registers. */
  function AckStatus(recv: nat, transm: nat): nat {
    if transm % 16 != READY then transm else recv
  }

  /** The status an interrupt reports; `status` is d_status or t_recv_status,
      which are the same register. */
  function IntStatus(line: int, status: nat, transm: nat): nat {
    if line == TERMINT then AckStatus(status, transm) else status
  }

  /** The semaphore an interrupt is charged to. */
  function IntIndex(line: int, dev: int, status: nat, transm: nat): int {
    GetSemArrayNum(line, dev,
      if line == TERMINT && AckStatus(status, transm) % 16 == READY then 8 else 0)
  }

  /** The head waiter of a device becomes ready with the status in its v0. */
  function DevWake(s: State, a: Addr, status: int): State
    requires a in s.blocked && s.blocked[a] != [] && s.blocked[a][0] < |s.semAdd| == |s.saved|
  {
    var p := s.blocked[a][0];
    Wake(s, a).(saved := s.saved[p := s.saved[p].(v0 := status)],
                softBlockCount := s.softBlockCount - 1)
  }

  function DeviceInterrupt(s: State, line: int, dev: int, status: nat, transm: nat, area: Cpu): (State, Outcome)
    requires Inv(s) && RealDevice(line, dev)
  {
    var a := DevAddr(s.cfg, IntIndex(line, dev, status, transm));
    var t := AddSem(s, a, 1);
    if Val(t.sem, a) > 0 then (t, Return(area))
    else if a !in s.blocked then (t, Fault)
    else
      assert s.blocked[a][0] in s.blocked[a];
      var w := DevWake(t, a, IntStatus(line, status, transm));
      if s.waitFlag then Scheduler(w) else (w, Load(area))
  }

  function QuantumEnd(s: State, area: Cpu): (State, Outcome)
    requires Inv(s) && !s.waitFlag
  {
    Scheduler(s.(saved := s.saved[s.current.value := area],
                 ready := s.ready + [s.current.value],
                 current := None))
  }

  /** The mass V: every waiter of the clock becomes ready. */
  function WakeAll(s: State, a: Addr): State
    requires a in s.blocked
  {
    var q := s.blocked[a];
    s.(blocked := s.blocked - {a},
       semAdd := seq(|s.semAdd|, x requires 0 <= x < |s.semAdd| => if x in q then NULL else s.semAdd[x]),
       ready := s.ready + q,
       sem := s.sem[a := Val(s.sem, a) + |q|],
       softBlockCount := s.softBlockCount - |q|)
  }

  function ClockTick(s: State, area: Cpu): (State, Outcome)
    requires Inv(s)
  {
    var a := DevAddr(s.cfg, CLOCKSEM);
    var t := if a in s.blocked && Val(s.sem, a) <= 0 then WakeAll(s, a) else s;
    if t.current.Some? then (t, Load(area)) else Scheduler(t)
  }

  // ---- the machine -------------------------------------------------------

  datatype Event =
    | SysCreate(area: Cpu, init: Cpu)
    | SysTerminate
    | SysV(a: Addr, area: Cpu)
    | SysP(a: Addr, area: Cpu)
    | SysClock(area: Cpu)
    | SysIO(line: int, dev: int, termRead: int, area: Cpu)
    | IntDevice(line: int, dev: int, status: nat, transm: nat, area: Cpu)
    | IntQuantum(area: Cpu)
    | IntClock(area: Cpu)

  /** System calls and quantum ends come from a running process. P and V name
      a real semaphore of the program, not a cell of devSemTable. */
  ghost predicate Enabled(s: State, e: Event) {
    match e
    case IntDevice(line, dev, _, _, _) => RealDevice(line, dev)
    case IntClock(_) => true
    case SysV(a, _) => !s.waitFlag && 0 < a < MAXINT && !IsDev(s.cfg, a)
    case SysP(a, _) => !s.waitFlag && 0 < a < MAXINT && !IsDev(s.cfg, a)
    case SysIO(line, dev, _, _) => !s.waitFlag && RealDevice(line, dev)
    case _ => !s.waitFlag
  }

  ghost function Step(s: State, e: Event): (State, Outcome)
    requires Inv(s) && Enabled(s, e)
  {
    match e
    case SysCreate(area, init) => CreateProcess(s, area, init)
    case SysTerminate => TerminateProcess(s)
    case SysV(a, area) => Verhogen(s, a, area)
    case SysP(a, area) => Passeren(s, a, area)
    case SysClock(area) => WaitForClock(s, area)
    case SysIO(line, dev, termRead, area) => WaitForIODevice(s, line, dev, termRead, area)
    case IntDevice(line, dev, status, transm, area) => DeviceInterrupt(s, line, dev, status, transm, area)
    case IntQuantum(area) => QuantumEnd(s, area)
    case IntClock(area) => ClockTick(s, area)
  }

  // ---- start-up and runs ---------------------------------------------------

  /** The first k device semaphores are set to 0. */
  function ZeroDevs(c: Config, sem: map<Addr, int>, k: nat): map<Addr, int> {
    if k == 0 then sem else ZeroDevs(c, sem, k - 1)[DevAddr(c, k - 1) := 0]
  }

  /** main just before it calls the scheduler: one process, on the ready queue. */
  function FirstState(cfg: Config, sem: map<Addr, int>, init: seq<Cpu>): State
    requires cfg.n >= 1
  {
    State(cfg,
      seq(cfg.n - 1, i requires 0 <= i < cfg.n - 1 => i + 1), [0], map[],
      seq(cfg.n, _ => NULL), init,
      Forest(seq(cfg.n, _ => []), seq(cfg.n, _ => None), seq(cfg.n, _ => 0), 1),
      ZeroDevs(cfg, sem, DEVICESEMNUM), None, false, 1, 0)
  }

  /** What the machine and the program image must offer: at least one pcb, a
      semaphore table that fits in memory, user semaphores not negative. */
  ghost predicate Image(cfg: Config, sem: map<Addr, int>, init: seq<Cpu>) {
    && cfg.n >= 1 && |init| == cfg.n
    && 0 < cfg.devSemTable && DevAddr(cfg, DEVICESEMNUM) <= MAXINT
    && (forall a :: 0 < a < MAXINT && !IsDev(cfg, a) ==> Val(sem, a) >= 0)
  }

  ghost predicate Booted(s: State) {
    exists cfg, sem, init :: Image(cfg, sem, init) && s == Scheduler(FirstState(cfg, sem, init)).0
  }

  predicate Continues(o: Outcome) {
    o.Load? || o.Wait? || o.Failed?
  }

  /** The machine goes on after the step, and no process has been dropped by it. */
  ghost predicate GoesOn(s: State, e: Event)
    requires Inv(s) && Enabled(s, e)
  {
    Continues(Step(s, e).1) && (e.SysTerminate? ==> CanTerminate(s, s.current.value))
  }

  /** One kernel entry after which the machine goes on. Nothing is assumed
      about states outside Inv; Safety shows that there are none. */
  ghost predicate Next(s: State, e: Event, t: State) {
    Enabled(s, e) && (Inv(s) ==> GoesOn(s, e) && t == Step(s, e).0)
  }

  ghost predicate IsRun(ss: seq<State>, es: seq<Event>) {
    |ss| == |es| + 1 && forall i :: 0 <= i < |es| ==> Next(ss[i], es[i], ss[i + 1])
  }

  ghost predicate Reachable(s: State) {
    exists ss, es :: IsRun(ss, es) && Booted(ss[0]) && s == ss[|es|]
  }
}
