/** The invariant over all runs, what each step's outcome means, and when the
    scheduler halts, panics or waits. */
module Safety {
  import opened Seqs
  import opened Forest
  import opened Nucleus
  import opened Keeps
  import opened Kill
  import opened Subtree

  // ---- a step is a body, possibly followed by the scheduler ---------------

  /** The semaphore of the device an interrupt reports. */
  function IntSem(s: State, e: Event): Addr
    requires e.IntDevice? && RealDevice(e.line, e.dev)
  {
    DevAddr(s.cfg, IntIndex(e.line, e.dev, e.status, e.transm))
  }

  /** The state a step has reached when it calls the scheduler or loads a state. */
  ghost function Body(s: State, e: Event): State
    requires Inv(s) && Enabled(s, e)
  {
    match e
    case SysTerminate => Terminate(s, s.current.value)
    case SysP(a, area) =>
      if Val(s.sem, a) - 1 < 0 then Block(AddSem(s, a, -1), a, area) else AddSem(s, a, -1)
    case SysClock(area) =>
      Block(AddSem(s, DevAddr(s.cfg, CLOCKSEM), -1), DevAddr(s.cfg, CLOCKSEM), area)
        .(softBlockCount := s.softBlockCount + 1)
    case SysIO(line, dev, termRead, area) =>
      var a := DevAddr(s.cfg, WaitIndex(line, dev, termRead));
      Block(AddSem(s, a, -1), a, area).(softBlockCount := s.softBlockCount + 1)
    case IntDevice(line, dev, status, transm, area) =>
      var a := DevAddr(s.cfg, IntIndex(line, dev, status, transm));
      if a in s.blocked then
        assert s.blocked[a][0] in s.blocked[a];
        DevWake(AddSem(s, a, 1), a, IntStatus(line, status, transm))
      else s
    case IntQuantum(area) =>
      s.(saved := s.saved[s.current.value := area],
         ready := s.ready + [s.current.value], current := None)
    case IntClock(_) =>
      var a := DevAddr(s.cfg, CLOCKSEM);
      if a in s.blocked then WakeAll(s, a) else s
    case _ => Step(s, e).0
  }

  /** Whether the step ends in the scheduler. */
  ghost predicate CallsScheduler(s: State, e: Event) {
    match e
    case SysTerminate => true
    case SysP(a, _) => Val(s.sem, a) - 1 < 0
    case SysClock(_) => true
    case SysIO(_, _, _, _) => true
    case IntDevice(_, _, _, _, _) => s.waitFlag
    case IntQuantum(_) => true
    case IntClock(_) => s.current == None
    case _ => false
  }

  /** The step ran the scheduler and the scheduler loaded a process. */
  ghost predicate Dispatches(s: State, e: Event)
    requires Inv(s) && Enabled(s, e)
  {
    CallsScheduler(s, e) && Body(s, e).ready != []
  }

  /** u is what a step may hand to the scheduler, or leave to the process it came from. */
  ghost predicate BodyOk(s: State, u: State, calls: bool) {
    && Core(u, if calls then None else Runner(s))
    && u.processCount >= 1
    && (calls ==> Stale(u))
    && (!calls ==> u.current == s.current && u.waitFlag == s.waitFlag && (s.waitFlag ==> u.free == s.free))
  }

  /** The device interrupt has no waiter, nor a deficit of killed ones. */
  ghost predicate ReturnsWhen(s: State, e: Event)
    requires Inv(s) && Enabled(s, e)
  {
    e.IntDevice? && Val(s.sem, IntSem(s, e)) == 0
  }

  /** SYS 2 by a process without a parent, or one whose victims include somebody
      an earlier victim has dropped; or a device interrupt that finds only a
      deficit of killed waiters. */
  ghost predicate FaultsWhen(s: State, e: Event)
    requires Inv(s) && Enabled(s, e)
  {
    || (e.SysTerminate? && (s.tree.parent[s.current.value] == None || KillStrands(s, s.current.value)))
    || (e.IntDevice? && Val(s.sem, IntSem(s, e)) < 0 && QueueAt(s.blocked, IntSem(s, e)) == [])
  }

  /** Nothing goes wrong in the step: it neither faults nor returns unhandled, and
      SYS 2 drops nobody. */
  ghost predicate Orderly(s: State, e: Event)
    requires Inv(s) && Enabled(s, e)
  {
    && !FaultsWhen(s, e) && !ReturnsWhen(s, e)
    && (e.SysTerminate? ==> CanTerminate(s, s.current.value))
  }

  /** An orderly step keeps the invariant up to the scheduler call. */
  lemma BodyOrderly(s: State, e: Event)
    requires Inv(s) && Enabled(s, e) && Orderly(s, e)
    ensures BodyOk(s, Body(s, e), CallsScheduler(s, e))
    ensures CallsScheduler(s, e) ==> Step(s, e) == Scheduler(Body(s, e))
    ensures !CallsScheduler(s, e) ==> Step(s, e).0 == Body(s, e)
  {
    match e {
      case SysCreate(area, init) => CreateKeeps(s, area, init);
      case SysTerminate => BodyTerminate(s);
      case SysV(a, area) => VKeeps(s, a, area);
      case SysP(a, area) => BodyP(s, a, area);
      case SysClock(area) => BodyClock(s, area);
      case SysIO(line, dev, termRead, area) => BodyIO(s, line, dev, termRead, area);
      case IntDevice(line, dev, status, transm, area) => BodyDevice(s, e);
      case IntQuantum(area) => QuantumKeeps(s, area);
      case IntClock(_) => BodyTick(s, e);
    }
  }

  /** So does every step that goes on. */
  lemma BodyKeeps(s: State, e: Event)
    requires Inv(s) && Enabled(s, e) && GoesOn(s, e)
    ensures BodyOk(s, Body(s, e), CallsScheduler(s, e))
    ensures CallsScheduler(s, e) ==> Step(s, e) == Scheduler(Body(s, e))
    ensures !CallsScheduler(s, e) ==> Step(s, e).0 == Body(s, e)
  {
    OutcomeExact(s, e);
    BodyOrderly(s, e);
  }

  lemma BodyTerminate(s: State)
    requires Inv(s) && Enabled(s, SysTerminate) && CanTerminate(s, s.current.value)
    ensures BodyOk(s, Body(s, SysTerminate), true)
    ensures Step(s, SysTerminate) == Scheduler(Body(s, SysTerminate))
  {
    TerminateKeeps(s);
    TerminateIs(s, s.current.value);
  }

  lemma BodyP(s: State, a: Addr, area: Cpu)
    requires Inv(s) && Enabled(s, SysP(a, area))
    ensures BodyOk(s, Body(s, SysP(a, area)), CallsScheduler(s, SysP(a, area)))
  {
    if Val(s.sem, a) - 1 < 0 {
      PBlockKeeps(s, a, area);
    } else {
      PPassKeeps(s, a, area);
    }
  }

  lemma BodyClock(s: State, area: Cpu)
    requires Inv(s) && Enabled(s, SysClock(area))
    ensures BodyOk(s, Body(s, SysClock(area)), true)
    ensures Step(s, SysClock(area)) == Scheduler(Body(s, SysClock(area)))
  {
    DevBlockKeeps(s, CLOCKSEM, area);
  }

  lemma BodyIO(s: State, line: int, dev: int, termRead: int, area: Cpu)
    requires Inv(s) && Enabled(s, SysIO(line, dev, termRead, area))
    ensures BodyOk(s, Body(s, SysIO(line, dev, termRead, area)), true)
    ensures Step(s, SysIO(line, dev, termRead, area)) == Scheduler(Body(s, SysIO(line, dev, termRead, area)))
  {
    DevBlockKeeps(s, WaitIndex(line, dev, termRead), area);
  }

  /** An interrupt goes on exactly when its device has a waiter. */
  lemma BodyDevice(s: State, e: Event)
    requires Inv(s) && Enabled(s, e) && e.IntDevice?
    ensures Val(s.sem, IntSem(s, e)) <= 0
    ensures Step(s, e).1.Return? <==> Val(s.sem, IntSem(s, e)) == 0
    ensures Step(s, e).1.Fault? <==> Val(s.sem, IntSem(s, e)) < 0 && QueueAt(s.blocked, IntSem(s, e)) == []
    ensures IntSem(s, e) in s.blocked ==>
      && BodyOk(s, Body(s, e), s.waitFlag)
      && (s.waitFlag ==> Step(s, e) == Scheduler(Body(s, e)))
      && (!s.waitFlag ==> Step(s, e) == (Body(s, e), Load(e.area)))
  {
    var i := IntIndex(e.line, e.dev, e.status, e.transm);
    assert Val(s.sem, DevAddr(s.cfg, i)) <= -|QueueAt(s.blocked, DevAddr(s.cfg, i))|;
    if DevAddr(s.cfg, i) in s.blocked {
      DevWakeKeeps(s, i, IntStatus(e.line, e.status, e.transm));
      if s.waitFlag {
        SchedulerKeeps(Body(s, e));
      }
    }
  }

  lemma BodyTick(s: State, e: Event)
    requires Inv(s) && e.IntClock?
    ensures BodyOk(s, Body(s, e), s.current == None)
    ensures s.current == None ==> Step(s, e) == Scheduler(Body(s, e))
    ensures s.current.Some? ==> Step(s, e) == (Body(s, e), Load(e.area))
  {
    TickKeeps(s);
  }

  lemma TerminateKeeps(s: State)
    requires Inv(s) && !s.waitFlag && CanTerminate(s, s.current.value)
    ensures Core(Terminate(s, s.current.value), None)
    ensures Terminate(s, s.current.value).processCount >= 1
  {
    TerminateExact(s);
    SomeoneSurvives(s);
  }

  lemma TickKeeps(s: State)
    requires Inv(s)
    ensures var a := DevAddr(s.cfg, CLOCKSEM);
      && (a in s.blocked ==> Val(s.sem, a) <= 0 && Core(WakeAll(s, a), Runner(s)))
  {
    var a := DevAddr(s.cfg, CLOCKSEM);
    assert Val(s.sem, a) <= -|QueueAt(s.blocked, a)|;
    if a in s.blocked {
      WakeAllKeeps(s, CLOCKSEM);
    }
  }

  /** Inv is kept by every step after which the machine goes on. */
  lemma StepKeeps(s: State, e: Event)
    requires Inv(s) && Enabled(s, e) && GoesOn(s, e)
    ensures Inv(Step(s, e).0)
  {
    BodyKeeps(s, e);
    OutcomeOfScheduler(s, e);
  }

  /** After SYS 2 has dropped somebody, the invariant is broken for good. */
  lemma LossBreaks(s: State)
    requires Inv(s) && Enabled(s, SysTerminate) && Continues(Step(s, SysTerminate).1)
    requires !CanTerminate(s, s.current.value)
    ensures !Inv(Step(s, SysTerminate).0)
  {
    var p := s.current.value;
    var vs := Post(s.tree, p);
    CoreTorn(s, s.current);
    SubtreeVictims(s, p);
    TerminateEnds(s, p);
    var w := DropsSomeone(s, vs);
    DroppedDispatched(Terminate(s, p), w);
  }

  lemma DroppedDispatched(u: State, w: Pid)
    requires Dropped(u, w) && forall p :: p in u.ready ==> p < |u.saved|
    ensures !Inv(Scheduler(u).0)
  {
  }

  /** Among the steps after which control goes on, exactly those that drop nobody keep Inv. */
  lemma StepKeepsExactly(s: State, e: Event)
    requires Inv(s) && Enabled(s, e) && Continues(Step(s, e).1)
    ensures Inv(Step(s, e).0) <==> (e.SysTerminate? ==> CanTerminate(s, s.current.value))
  {
    if GoesOn(s, e) {
      StepKeeps(s, e);
    } else {
      LossBreaks(s);
    }
  }

  // ---- what the other outcomes mean ---------------------------------------

  ghost predicate OutcomeIs(s: State, e: Event)
    requires Inv(s) && Enabled(s, e)
  {
    && (Step(s, e).1.Failed? <==> e.SysCreate? && s.free == [])
    && (Step(s, e).1.Return? <==> ReturnsWhen(s, e))
    && (Step(s, e).1.Fault? <==> FaultsWhen(s, e))
    && !Step(s, e).1.Halt?
  }

  /** The ways a step can end without reaching the scheduler's choice or a process,
      each with the condition on the state before it. HALT is not among the outcomes. */
  lemma OutcomeExact(s: State, e: Event)
    requires Inv(s) && Enabled(s, e)
    ensures OutcomeIs(s, e)
  {
    match e {
      case SysCreate(area, init) =>
      case SysTerminate => OutcomeTerminate(s);
      case SysV(a, area) =>
      case SysP(a, area) => OutcomeP(s, a, area);
      case SysClock(area) => BodyClock(s, area); SchedulerKeeps(Body(s, e));
      case SysIO(line, dev, termRead, area) => BodyIO(s, line, dev, termRead, area); SchedulerKeeps(Body(s, e));
      case IntDevice(line, dev, status, transm, area) => OutcomeDevice(s, e);
      case IntQuantum(area) => QuantumKeeps(s, area); SchedulerKeeps(Body(s, e));
      case IntClock(_) => OutcomeTick(s, e);
    }
  }

  lemma OutcomeTerminate(s: State)
    requires Inv(s) && Enabled(s, SysTerminate)
    ensures OutcomeIs(s, SysTerminate)
  {
    var p := s.current.value;
    TerminateEnds(s, p);
    if s.tree.parent[p].Some? && !KillNull(s, p) {
      SomeoneSurvives(s);
    }
  }

  lemma OutcomeP(s: State, a: Addr, area: Cpu)
    requires Inv(s) && Enabled(s, SysP(a, area))
    ensures OutcomeIs(s, SysP(a, area))
  {
    BodyP(s, a, area);
    OutcomeOfScheduler(s, SysP(a, area));
  }

  lemma OutcomeDevice(s: State, e: Event)
    requires Inv(s) && Enabled(s, e) && e.IntDevice?
    ensures OutcomeIs(s, e)
  {
    BodyDevice(s, e);
    OutcomeOfScheduler(s, e);
  }

  lemma OutcomeTick(s: State, e: Event)
    requires Inv(s) && Enabled(s, e) && e.IntClock?
    ensures OutcomeIs(s, e)
  {
    BodyTick(s, e);
    OutcomeOfScheduler(s, e);
  }

  lemma OutcomeOfScheduler(s: State, e: Event)
    requires Inv(s) && Enabled(s, e)
    ensures CallsScheduler(s, e) && BodyOk(s, Body(s, e), true) ==>
      AfterDispatch(Scheduler(Body(s, e)).0, Scheduler(Body(s, e)).1)
  {
    if CallsScheduler(s, e) && BodyOk(s, Body(s, e), true) {
      SchedulerKeeps(Body(s, e));
    }
  }

  // ---- runs ---------------------------------------------------------------

  lemma {:induction false} ZeroDevsVal(c: Config, sem: map<Addr, int>, k: nat, a: Addr)
    ensures Val(ZeroDevs(c, sem, k), a) ==
      if exists i :: 0 <= i < k && DevAddr(c, i) == a then 0 else Val(sem, a)
  {
    if k > 0 {
      ZeroDevsVal(c, sem, k - 1, a);
      assert DevAddr(c, k - 1) == a ==> exists i :: 0 <= i < k && DevAddr(c, i) == a;
    }
  }

  lemma {:induction false} NoWaiters(c: Config, k: nat)
    ensures DevWaiters(c, map[], k) == 0
  {
    if k > 0 {
      NoWaiters(c, k - 1);
    }
  }

  /** main establishes the invariant. */
  lemma BootKeeps(cfg: Config, sem: map<Addr, int>, init: seq<Cpu>)
    requires Image(cfg, sem, init)
    ensures Core(FirstState(cfg, sem, init), None) && FirstState(cfg, sem, init).processCount == 1
    ensures Inv(Scheduler(FirstState(cfg, sem, init)).0)
  {
    var s := FirstState(cfg, sem, init);
    NoWaiters(cfg, DEVICESEMNUM);
    forall a | 0 < a < MAXINT && !IsDev(s.cfg, a)
      ensures |QueueAt(s.blocked, a)| == if Val(s.sem, a) < 0 then -Val(s.sem, a) else 0
    {
      ZeroDevsVal(cfg, sem, DEVICESEMNUM, a);
    }
    forall i | 0 <= i < DEVICESEMNUM
      ensures Val(s.sem, DevAddr(s.cfg, i)) <= -|QueueAt(s.blocked, DevAddr(s.cfg, i))|
    {
      ZeroDevsVal(cfg, sem, DEVICESEMNUM, DevAddr(cfg, i));
    }
    forall x | 0 <= x < cfg.n ensures x in s.free || x in s.ready {
      if x > 0 { assert s.free[x - 1] == x; }
    }
    assert Placed(s, None);
    SchedulerKeeps(s);
  }

  /** Along a run the invariant holds in every state. */
  lemma {:induction false} RunKeeps(ss: seq<State>, es: seq<Event>, i: nat)
    requires IsRun(ss, es) && Inv(ss[0]) && i <= |es|
    ensures Inv(ss[i])
  {
    if i > 0 {
      RunKeeps(ss, es, i - 1);
      assert Next(ss[i - 1], es[i - 1], ss[i - 1 + 1]);
      StepKeeps(ss[i - 1], es[i - 1]);
    }
  }

  /** The invariant holds in every state the kernel can reach. */
  lemma AlwaysInv(s: State)
    requires Reachable(s)
    ensures Inv(s)
  {
    var ss, es :| IsRun(ss, es) && Booted(ss[0]) && s == ss[|es|];
    var cfg, sem, init :| Image(cfg, sem, init) && ss[0] == Scheduler(FirstState(cfg, sem, init)).0;
    BootKeeps(cfg, sem, init);
    RunKeeps(ss, es, |es|);
  }

  // ---- the scheduler's decision -------------------------------------------

  ghost predicate Live(s: State, x: Pid) {
    x < s.cfg.n && x !in s.free
  }

  /** x waits for a device or for the clock. */
  ghost predicate SoftBlocked(s: State, x: Pid) {
    exists i :: 0 <= i < DEVICESEMNUM && x in QueueAt(s.blocked, DevAddr(s.cfg, i))
  }

  /** x waits for a semaphore of the program. */
  ghost predicate HardBlocked(s: State, x: Pid) {
    && x < |s.semAdd| && s.semAdd[x] in s.blocked && x in s.blocked[s.semAdd[x]]
    && !IsDev(s.cfg, s.semAdd[x])
  }

  lemma {:induction false} SomeDevWaiter(c: Config, b: map<Addr, seq<Pid>>, k: nat)
    ensures DevWaiters(c, b, k) > 0 <==> exists i :: 0 <= i < k && QueueAt(b, DevAddr(c, i)) != []
  {
    if k > 0 {
      SomeDevWaiter(c, b, k - 1);
      if QueueAt(b, DevAddr(c, k - 1)) != [] {
        assert 0 <= k - 1 < k;
      }
    }
  }

  lemma {:induction false} FullBelow(q: seq<nat>, n: nat)
    requires NoDup(q) && (forall x :: x in q ==> x < n) && |q| == n
    ensures forall x: nat :: x < n ==> x in q
    decreases n
  {
    forall x: nat | x < n ensures x in q {
      if x !in q {
        NoDupAppend(q, x);
        NoDupBound(q + [x], n);
        assert false;
      }
    }
  }

  /** With no process running, the scheduler
      loads the head of the ready queue if there is one, and otherwise
      halts exactly when nobody is live,
      waits exactly when a live process waits for a device or the clock,
      panics exactly when someone is live and everyone live waits for a
      semaphore that is neither. */
  lemma SchedulerDecides(s: State)
    requires Core(s, None)
    ensures Scheduler(s).1.Load? <==> s.ready != []
    ensures Scheduler(s).1.Halt? <==> s.ready == [] && !exists x :: Live(s, x)
    ensures Scheduler(s).1.Wait? <==> s.ready == [] && exists x :: Live(s, x) && SoftBlocked(s, x)
    ensures Scheduler(s).1.Panic? <==>
      (s.ready == [] && (exists x :: Live(s, x)) && forall x: Pid :: Live(s, x) ==> HardBlocked(s, x))
  {
    assert s.processCount == 0 <==> !exists x :: Live(s, x) by { NobodyLive(s); }
    assert s.softBlockCount > 0 <==> exists x :: Live(s, x) && SoftBlocked(s, x) by { SomebodySoft(s); }
    forall x: Pid | Live(s, x) && s.ready == []
      ensures s.semAdd[x] in s.blocked && x in s.blocked[s.semAdd[x]]
      ensures SoftBlocked(s, x) <==> IsDev(s.cfg, s.semAdd[x])
    {
      var a := s.semAdd[x];
      if IsDev(s.cfg, a) {
        var i :| 0 <= i < DEVICESEMNUM && DevAddr(s.cfg, i) == a;
        assert x in QueueAt(s.blocked, DevAddr(s.cfg, i));
      }
    }
  }

  /** What a step's outcome says about the processes at the moment of the choice:
      WAIT and PANIC come only from the scheduler, with an empty ready queue; WAIT
      exactly when a live process waits for a device or the clock, PANIC exactly
      when someone is live and everyone live waits for another semaphore. */
  ghost predicate Decides(s: State, e: Event)
    requires Inv(s) && Enabled(s, e)
  {
    var u, o := Body(s, e), Step(s, e).1;
    var idle := CallsScheduler(s, e) && u.ready == [];
    && (o.Wait? <==> idle && exists x :: Live(u, x) && SoftBlocked(u, x))
    && (o.Panic? <==> idle && (exists x :: Live(u, x)) && forall x: Pid :: Live(u, x) ==> HardBlocked(u, x))
    && (o.Load? || o.Failed? <==> !idle)
  }

  lemma StepDecides(s: State, e: Event)
    requires Inv(s) && Enabled(s, e) && Orderly(s, e)
    ensures Decides(s, e)
  {
    hide Body, Scheduler, Live, SoftBlocked, HardBlocked, Shape, Placed, Counted, Valued, Related, CanTerminate;
    BodyOrderly(s, e);
    OutcomeExact(s, e);
    if CallsScheduler(s, e) {
      SchedulerDecides(Body(s, e));
    } else {
      QuietOutcome(s, e);
    }
  }

  lemma QuietOutcome(s: State, e: Event)
    requires Inv(s) && Enabled(s, e) && Orderly(s, e) && !CallsScheduler(s, e)
    ensures Step(s, e).1.Load? || Step(s, e).1.Failed?
  {
    if e.IntDevice? {
      BodyDevice(s, e);
    }
  }

  /** The machine goes on after exactly the orderly steps that do not panic. */
  lemma GoesOnExactly(s: State, e: Event)
    requires Inv(s) && Enabled(s, e)
    ensures GoesOn(s, e) <==> Orderly(s, e) && !Step(s, e).1.Panic?
  {
    OutcomeExact(s, e);
  }

  /** The scheduler's decision is right in every state the kernel can reach. */
  lemma AlwaysDecides(s: State, e: Event)
    requires Reachable(s) && Enabled(s, e)
    ensures Inv(s)
    ensures Orderly(s, e) ==> Decides(s, e)
  {
    AlwaysInv(s);
    if Orderly(s, e) {
      StepDecides(s, e);
    }
  }

  lemma NobodyLive(s: State)
    requires Core(s, None)
    ensures s.processCount == 0 <==> !exists x :: Live(s, x)
  {
    if s.processCount == 0 {
      FullBelow(s.free, s.cfg.n);
    } else if !exists x :: Live(s, x) {
      assert forall x: nat :: x < s.cfg.n ==> Live(s, x) || x in s.free;
      AllBelow(s.free, s.cfg.n);
      assert false;
    }
  }

  lemma {:induction false} AllBelow(q: seq<nat>, n: nat)
    requires NoDup(q) && (forall x :: x in q ==> x < n) && forall x: nat :: x < n ==> x in q
    ensures |q| == n
    decreases n
  {
    NoDupBound(q, n);
    if n > 0 {
      WithoutNoDup(q, {n - 1});
      WithoutOne(q, Pos(q, n - 1));
      AllBelow(Without(q, {n - 1}), n - 1);
    }
  }

  lemma SomebodySoft(s: State)
    requires Core(s, None)
    ensures s.softBlockCount > 0 <==> exists x :: Live(s, x) && SoftBlocked(s, x)
  {
    SomeDevWaiter(s.cfg, s.blocked, DEVICESEMNUM);
    if s.softBlockCount > 0 {
      var i :| 0 <= i < DEVICESEMNUM && QueueAt(s.blocked, DevAddr(s.cfg, i)) != [];
      var q := QueueAt(s.blocked, DevAddr(s.cfg, i));
      assert q[0] in q;
      assert Live(s, q[0]) && SoftBlocked(s, q[0]);
    }
  }

  /** In a wait, a clock tick leads back to the scheduler exactly when
      currentProcess is NULL. Otherwise it points at a pcb that SYS 2 has freed,
      and LDST returns into the wait although the waiters are now ready. */
  lemma TickInWait(s: State, area: Cpu)
    requires Inv(s) && s.waitFlag
    ensures s.current == None <==> ClockTick(s, area) == Scheduler(Body(s, IntClock(area)))
    ensures s.current.Some? ==>
      && s.current.value in s.free
      && ClockTick(s, area) == (Body(s, IntClock(area)), Load(area))
      && ClockTick(s, area).0.waitFlag
      && ClockTick(s, area).0.ready == s.ready + QueueAt(s.blocked, DevAddr(s.cfg, CLOCKSEM))
  {
    TickKeeps(s);
    BodyTick(s, IntClock(area));
    var u := Body(s, IntClock(area));
    assert Scheduler(u).1.Load? ==> !Scheduler(u).0.waitFlag;
  }
}
