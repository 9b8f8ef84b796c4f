/** Processor states: what a process is loaded with is what it had when it last
    gave up the processor, or was created with, apart from the v0 that a system
    call or a device answers in. */
module Contexts {
  import opened Seqs
  import opened Forest
  import opened Nucleus
  import opened Keeps
  import opened Kill
  import opened Subtree
  import opened Safety
  import opened Counting
  import opened Fairness
  import opened Devices

  // ---- staying on the processor -------------------------------------------------

  /** A process that has the processor before and after a step goes on with the
      state it entered the kernel with. Only SYS 1 answers, in v0: 0, or -1 if there
      was no pcb. */
  lemma StaysLoads(s: State, e: Event, p: Pid)
    requires Inv(s) && Enabled(s, e) && GoesOn(s, e) && Runs(s, p) && Runs(Step(s, e).0, p)
    ensures !e.SysTerminate?
    ensures e.SysCreate? ==>
      Step(s, e).1 == if s.free == [] then Failed(e.area.(v0 := -1)) else Load(e.area.(v0 := 0))
    ensures !e.SysCreate? ==> Step(s, e).1 == Load(e.area)
  {
    match e {
      case SysTerminate => CallerGone(s, p);
      case SysP(a, area) => StaysP(s, e, p);
      case SysClock(area) => StaysNot(s, e, p);
      case SysIO(line, dev, termRead, area) => StaysNot(s, e, p);
      case IntDevice(line, dev, status, transm, area) => BodyDevice(s, e);
      case IntClock(area) => BodyTick(s, e);
      case _ =>
    }
  }

  /** An interrupt that returns unhandled leaves the interrupted state as it was. */
  lemma ReturnsState(s: State, e: Event)
    requires Inv(s) && Enabled(s, e) && Step(s, e).1.Return?
    ensures e.IntDevice? && Step(s, e).1 == Return(e.area)
  {
    OutcomeExact(s, e);
  }

  lemma CallerGone(s: State, p: Pid)
    requires Inv(s) && Enabled(s, SysTerminate) && GoesOn(s, SysTerminate) && Runs(s, p)
    ensures !Runs(Step(s, SysTerminate).0, p)
  {
    StepKeeps(s, SysTerminate);
    BodyTerminate(s);
    TerminateIs(s, p);
    SchedulerFrame(Body(s, SysTerminate));
  }

  /** A process that blocks does not get the processor back in the same step. */
  lemma StaysNot(s: State, e: Event, p: Pid)
    requires Inv(s) && Enabled(s, e) && GoesOn(s, e) && Runs(s, p) && (e.SysClock? || e.SysIO?)
    ensures !Runs(Step(s, e).0, p)
  {
    BlocksAt(s, e, p);
    StepKeeps(s, e);
    WaiterIdle(Step(s, e).0, Blocking(s, e).value, p);
  }

  lemma StaysP(s: State, e: Event, p: Pid)
    requires Inv(s) && Enabled(s, e) && GoesOn(s, e) && Runs(s, p) && e.SysP? && Runs(Step(s, e).0, p)
    ensures Step(s, e).1 == Load(e.area)
  {
    if Val(s.sem, e.a) - 1 < 0 {
      BlocksAt(s, e, p);
      StepKeeps(s, e);
      WaiterIdle(Step(s, e).0, e.a, p);
      assert false;
    }
  }

  // ---- leaving it -----------------------------------------------------------------

  /** The semaphore a system call blocks on. */
  ghost function Blocking(s: State, e: Event): Option<Addr>
    requires Enabled(s, e)
  {
    match e
    case SysP(a, _) => if Val(s.sem, a) <= 0 then Some(a) else None
    case SysClock(_) => Some(DevAddr(s.cfg, CLOCKSEM))
    case SysIO(line, dev, termRead, _) => Some(DevAddr(s.cfg, WaitIndex(line, dev, termRead)))
    case _ => None
  }

  /** A blocking call queues its caller with the state it entered with. */
  lemma BlocksAt(s: State, e: Event, p: Pid)
    requires Inv(s) && Enabled(s, e) && GoesOn(s, e) && Runs(s, p) && Blocking(s, e).Some?
    ensures WaitsAt(Step(s, e).0, Blocking(s, e).value, p)
    ensures p < |Step(s, e).0.saved| && Step(s, e).0.saved[p] == e.area
  {
    hide Related, Counted;
    BodyKeeps(s, e);
    BodyFits(s, e);
    SchedulerFrame(Body(s, e));
  }

  /** Whoever gives up the processor and is not terminated has the state it entered
      with saved, and either waits on the semaphore it named or is ready again. */
  lemma LeavesSaved(s: State, e: Event, p: Pid)
    requires Inv(s) && Enabled(s, e) && GoesOn(s, e) && Runs(s, p) && Spares(s, e, p) && !Runs(Step(s, e).0, p)
    ensures !e.SysTerminate? && p < |Step(s, e).0.saved| && Step(s, e).0.saved[p] == e.area
    ensures Blocking(s, e).Some? ==> WaitsAt(Step(s, e).0, Blocking(s, e).value, p)
    ensures Blocking(s, e) == None ==> e.IntQuantum? && p in Step(s, e).0.ready
  {
    if Blocking(s, e).Some? {
      BlocksAt(s, e, p);
    } else if e.IntQuantum? {
      QuantumLeaves(s, e, p);
    } else {
      OnlyQuantum(s, e, p);
    }
  }

  lemma QuantumLeaves(s: State, e: Event, p: Pid)
    requires Inv(s) && Enabled(s, e) && Runs(s, p) && e.IntQuantum? && !Runs(Step(s, e).0, p)
    ensures p < |Step(s, e).0.saved| && Step(s, e).0.saved[p] == e.area && p in Step(s, e).0.ready
  {
    var r := s.ready + [p];
    assert r[|r| - 1] == p;
    assert r[0] == p || r[1..][|r| - 2] == p;
  }

  lemma OnlyQuantum(s: State, e: Event, p: Pid)
    requires Inv(s) && Enabled(s, e) && GoesOn(s, e) && Runs(s, p) && Spares(s, e, p)
    requires Blocking(s, e) == None && !e.IntQuantum?
    ensures Runs(Step(s, e).0, p)
  {
    match e {
      case SysTerminate => PostUnder(s.tree, p, p); assert false;
      case IntDevice(line, dev, status, transm, area) => BodyDevice(s, e);
      case IntClock(area) => BodyTick(s, e);
      case _ =>
    }
  }

  // ---- coming off a queue -------------------------------------------------------------

  /** In this step p comes off the queue of a: by the V that finds it at the head,
      by the interrupt of that device that does, or by the clock tick. */
  ghost predicate Released(s: State, e: Event, a: Addr, p: Pid) {
    || (e.SysV? && e.a == a && QueueHead(s.blocked, a) == {p})
    || (e.IntDevice? && RealDevice(e.line, e.dev) && IntSem(s, e) == a && QueueHead(s.blocked, a) == {p})
    || (e.IntClock? && DevAddr(s.cfg, CLOCKSEM) == a)
  }

  /** A waiter that is not terminated goes on waiting until it is released. */
  lemma ReleasedBody(s: State, e: Event, a: Addr, p: Pid)
    requires Inv(s) && Enabled(s, e) && GoesOn(s, e) && WaitsAt(s, a, p) && Spares(s, e, p)
    ensures WaitsAt(Body(s, e), a, p) || (Released(s, e, a, p) && p in Body(s, e).ready)
  {
    hide Counted, Valued, Related;
    match e {
      case SysTerminate => TerminateClean(s, s.current.value);
      case SysV(b, area) => ReleasedV(s, e, a, p);
      case SysP(b, area) =>
        if Val(s.sem, b) - 1 < 0 { StaysBlock(s, b, area, a, p); }
      case SysClock(area) => StaysBlock(s, DevAddr(s.cfg, CLOCKSEM), area, a, p);
      case SysIO(line, dev, termRead, area) =>
        StaysBlock(s, DevAddr(s.cfg, WaitIndex(line, dev, termRead)), area, a, p);
      case IntDevice(line, dev, status, transm, area) => ReleasedDevice(s, e, a, p);
      case _ =>
    }
  }

  lemma StaysBlock(s: State, b: Addr, area: Cpu, a: Addr, p: Pid)
    requires Inv(s) && !s.waitFlag && 0 < b < MAXINT && WaitsAt(s, a, p)
    ensures WaitsAt(Block(AddSem(s, b, -1), b, area), a, p)
  {
    BlockPlaced(AddSem(s, b, -1), b, area);
  }

  lemma ReleasedV(s: State, e: Event, a: Addr, p: Pid)
    requires Inv(s) && Enabled(s, e) && e.SysV? && WaitsAt(s, a, p)
    ensures WaitsAt(Body(s, e), a, p) || (Released(s, e, a, p) && p in Body(s, e).ready)
  {
    VFindsWaiter(s, s.current, e.a);
    if e.a in s.blocked {
      WakePlaced(AddSem(s, e.a, 1), s.current, e.a);
    }
  }

  lemma ReleasedDevice(s: State, e: Event, a: Addr, p: Pid)
    requires Inv(s) && Enabled(s, e) && e.IntDevice? && WaitsAt(s, a, p)
    ensures WaitsAt(Body(s, e), a, p) || (Released(s, e, a, p) && p in Body(s, e).ready)
  {
    if IntSem(s, e) in s.blocked {
      WakePlaced(AddSem(s, IntSem(s, e), 1), Runner(s), IntSem(s, e));
    }
  }

  /** The saved state a released process takes with it. */
  function Given(c: Cpu, e: Event): Cpu {
    if e.IntDevice? then c.(v0 := Reported(e)) else c
  }

  lemma ReleasedStep(s: State, e: Event, a: Addr, p: Pid)
    requires Inv(s) && Enabled(s, e) && GoesOn(s, e) && WaitsAt(s, a, p) && Spares(s, e, p)
    ensures p < |s.saved| == |Step(s, e).0.saved|
    ensures WaitsAt(Step(s, e).0, a, p) ==> Step(s, e).0.saved[p] == s.saved[p]
    ensures !WaitsAt(Step(s, e).0, a, p) ==>
      && Released(s, e, a, p) && Step(s, e).0.saved[p] == Given(s.saved[p], e)
      && (p in Step(s, e).0.ready || Runs(Step(s, e).0, p))
  {
    hide Body, Scheduler, Shape, Placed, Counted, Valued, Related;
    BodyKeeps(s, e);
    BodyFits(s, e);
    SchedulerFrame(Body(s, e));
    ReleasedBody(s, e, a, p);
    ReleasedSaved(s, e, a, p);
    if p in Body(s, e).ready {
      ReadyOrRuns(Body(s, e), p);
    }
  }

  lemma ReadyOrRuns(u: State, p: Pid)
    requires p in u.ready && forall x :: x in u.ready ==> x < |u.saved|
    ensures p in Scheduler(u).0.ready || Runs(Scheduler(u).0, p)
  {
  }

  lemma ReleasedSaved(s: State, e: Event, a: Addr, p: Pid)
    requires Inv(s) && Enabled(s, e) && GoesOn(s, e) && WaitsAt(s, a, p)
    ensures p < |s.saved| == |Step(s, e).0.saved|
    ensures WaitsAt(Step(s, e).0, a, p) ==> Step(s, e).0.saved[p] == s.saved[p]
    ensures Released(s, e, a, p) ==> Step(s, e).0.saved[p] == Given(s.saved[p], e)
  {
    hide Related, Counted, Valued;
    WaiterIdle(s, a, p);
    SavedKept(s, e, p);
    if e.IntDevice? && QueueAt(s.blocked, IntSem(s, e)) != [] && QueueAt(s.blocked, IntSem(s, e))[0] == p {
      WokenLeaves(s, e, p);
    }
    if Released(s, e, a, p) && e.IntDevice? {
      var q := QueueAt(s.blocked, a);
      assert q[0] in QueueHead(s.blocked, a);
    }
  }

  // ---- from one run to the next ---------------------------------------------------------

  /** p has waited on a since step k, or it was released in step w and is ready. */
  ghost predicate OffSince(ss: seq<State>, es: seq<Event>, p: Pid, a: Addr, c: Cpu, k: nat, i: nat, w: nat)
    requires |ss| == |es| + 1 && k < i <= |es|
  {
    && p < |ss[i].saved|
    && (w == k ==> WaitsAt(ss[i], a, p) && ss[i].saved[p] == c)
    && (w != k ==>
          && k < w < i && Released(ss[w], es[w], a, p) && p in ss[i].ready
          && ss[i].saved[p] == Given(c, es[w]))
  }

  lemma {:induction false} WaitsOrReady(ss: seq<State>, es: seq<Event>, p: Pid, a: Addr, c: Cpu, k: nat, i: nat)
      returns (w: nat)
    requires IsRun(ss, es) && Inv(ss[0]) && k < i <= |es|
    requires p < |ss[k + 1].saved| && ss[k + 1].saved[p] == c && WaitsAt(ss[k + 1], a, p)
    requires forall j :: k < j < i ==> Spares(ss[j], es[j], p)
    requires forall j :: k < j <= i ==> !Runs(ss[j], p)
    ensures OffSince(ss, es, p, a, c, k, i, w)
    decreases i
  {
    hide Inv, Enabled, GoesOn, Step, Spares, Runs, Released, WaitsAt;
    if i == k + 1 {
      w := k;
    } else {
      w := WaitsOrReady(ss, es, p, a, c, k, i - 1);
      RunKeeps(ss, es, i - 1);
      assert Next(ss[i - 1], es[i - 1], ss[i - 1 + 1]) && Spares(ss[i - 1], es[i - 1], p);
      if w == k {
        ReleasedStep(ss[i - 1], es[i - 1], a, p);
        if !WaitsAt(ss[i], a, p) { w := i - 1; }
      } else {
        ReadyKeepsSaved(ss[i - 1], es[i - 1], p);
      }
    }
  }

  /** p gives up the processor in step k, is not terminated, and gets it back in step m. */
  ghost predicate AwayBetween(ss: seq<State>, es: seq<Event>, p: Pid, k: nat, m: nat)
    requires |ss| == |es| + 1
  {
    && k < m < |es|
    && (forall i :: k < i <= m ==> !Runs(ss[i], p) && Spares(ss[i], es[i], p))
    && Runs(ss[m + 1], p)
  }

  /** A blocked caller resumes with the state of its call, and with the status in v0
      if it was a device that released it. */
  lemma BlockedResumes(ss: seq<State>, es: seq<Event>, p: Pid, a: Addr, c: Cpu, k: nat, m: nat) returns (w: nat)
    requires IsRun(ss, es) && Inv(ss[0]) && AwayBetween(ss, es, p, k, m)
    requires p < |ss[k + 1].saved| && ss[k + 1].saved[p] == c && WaitsAt(ss[k + 1], a, p)
    ensures Inv(ss[m]) && Enabled(ss[m], es[m])
    ensures k < w <= m && Released(ss[w], es[w], a, p)
    ensures Step(ss[m], es[m]).1 == Load(Given(c, es[w]))
  {
    hide Inv, Enabled, GoesOn, Step, Spares, Runs, Released, WaitsAt, Given;
    w := WaitsOrReady(ss, es, p, a, c, k, m);
    RunKeeps(ss, es, m);
    RunKeeps(ss, es, m + 1);
    assert Next(ss[m], es[m], ss[m + 1]) && Spares(ss[m], es[m], p) && !Runs(ss[m], p);
    if w == k {
      w := m;
      RunnerWaitsNowhere(ss[m + 1], a, p);
      ReleasedStep(ss[m], es[m], a, p);
    } else {
      ReadySaved(ss[m], es[m], p);
    }
    DispatchLoads(ss[m], es[m], p);
  }

  lemma RunnerWaitsNowhere(s: State, a: Addr, p: Pid)
    requires Inv(s) && Runs(s, p)
    ensures !WaitsAt(s, a, p)
  {
  }

  /** The one law of processor states. A process that gives up the processor in step
      k and next gets it in step m is loaded with the state it entered step k with:
      exactly that if its quantum had ended; exactly that after a P, and then a V on
      that semaphore has found it at the head of the queue; exactly that after SYS 7,
      and then the clock has ticked; and with the reported status in v0 after SYS 8,
      and then an interrupt charged to that semaphore has found it at the head. */
  lemma Resumes(ss: seq<State>, es: seq<Event>, p: Pid, k: nat, m: nat) returns (w: nat)
    requires IsRun(ss, es) && Inv(ss[0]) && AwayBetween(ss, es, p, k, m)
    requires Runs(ss[k], p) && Spares(ss[k], es[k], p)
    ensures Inv(ss[m]) && Enabled(ss[m], es[m])
    ensures es[k].SysP? || es[k].SysClock? || es[k].SysIO? || es[k].IntQuantum?
    ensures !es[k].IntQuantum? ==> k < w <= m && Answered(ss[k], es[k], ss[w], es[w], p)
    ensures es[k].SysP? ==> es[w].SysV? && es[w].a == es[k].a
    ensures es[k].SysClock? ==> es[w].IntClock?
    ensures es[k].SysIO? ==> es[w].IntDevice?
    ensures Step(ss[m], es[m]).1 ==
      Load(if es[k].SysIO? then es[k].area.(v0 := Reported(es[w])) else es[k].area)
  {
    hide Inv, Enabled, GoesOn, Step, Spares, Runs, Released, WaitsAt, Blocking;
    RunKeeps(ss, es, k);
    RunKeeps(ss, es, m);
    assert Next(ss[k], es[k], ss[k + 1]) && !Runs(ss[k + 1], p);
    LeavesSaved(ss[k], es[k], p);
    if es[k].IntQuantum? {
      QuantumBlocksNot(ss[k], es[k]);
      ReadyResumes(ss, es, p, es[k].area, k, m);
      w := k;
    } else {
      var a := Blocking(ss[k], es[k]).value;
      w := BlockedResumes(ss, es, p, a, es[k].area, k, m);
      RunKeeps(ss, es, w);
      assert Next(ss[w], es[w], ss[w + 1]);
      RunCfgAt(ss, es, k, w);
      ReleaseKind(ss[k], es[k], ss[w], es[w], p);
    }
  }

  lemma QuantumBlocksNot(s: State, e: Event)
    requires Enabled(s, e) && e.IntQuantum?
    ensures Blocking(s, e) == None
  {
  }

  /** In step f from t, p comes off the queue it joined in step e from s. */
  ghost predicate Answered(s: State, e: Event, t: State, f: Event, p: Pid) {
    Enabled(s, e) && Blocking(s, e).Some? && Released(t, f, Blocking(s, e).value, p)
  }

  lemma ReadyResumes(ss: seq<State>, es: seq<Event>, p: Pid, c: Cpu, k: nat, m: nat)
    requires IsRun(ss, es) && Inv(ss[0]) && AwayBetween(ss, es, p, k, m)
    requires p < |ss[k + 1].saved| && ss[k + 1].saved[p] == c && p in ss[k + 1].ready
    ensures Inv(ss[m]) && Enabled(ss[m], es[m]) && Step(ss[m], es[m]).1 == Load(c)
  {
    ReadyUntilRun(ss, es, p, k + 1, m, c);
    assert Next(ss[m], es[m], ss[m + 1]) && Spares(ss[m], es[m], p);
    ReadySaved(ss[m], es[m], p);
    DispatchLoads(ss[m], es[m], p);
  }

  lemma RunCfgAt(ss: seq<State>, es: seq<Event>, k: nat, w: nat)
    requires IsRun(ss, es) && Inv(ss[0]) && k <= w <= |es|
    ensures ss[w].cfg == ss[k].cfg
  {
    RunPrefix(ss, es, k);
    RunPrefix(ss, es, w);
    RunCfg(ss[..k + 1], es[..k]);
    RunCfg(ss[..w + 1], es[..w]);
  }

  /** What releases a caller is told by what it waits for. */
  lemma ReleaseKind(s: State, e: Event, t: State, f: Event, p: Pid)
    requires Inv(s) && Enabled(s, e) && Blocking(s, e).Some? && Inv(t) && Enabled(t, f) && t.cfg == s.cfg
    requires Released(t, f, Blocking(s, e).value, p)
    ensures e.SysP? || e.SysClock? || e.SysIO?
    ensures e.SysP? ==> f.SysV? && f.a == e.a
    ensures e.SysClock? ==> f.IntClock?
    ensures e.SysIO? ==> f.IntDevice?
  {
    var a := Blocking(s, e).value;
    if f.IntDevice? {
      DeviceCell(t, f);
    }
    if e.SysIO? {
      WaitIndexInjective(e.line, e.dev, e.termRead, e.line, e.dev, e.termRead);
      assert IsDev(s.cfg, a);
    }
    assert IsDev(s.cfg, DevAddr(s.cfg, CLOCKSEM));
  }

  lemma DeviceCell(s: State, e: Event)
    requires e.IntDevice? && RealDevice(e.line, e.dev)
    ensures IsDev(s.cfg, IntSem(s, e)) && IntSem(s, e) != DevAddr(s.cfg, CLOCKSEM)
  {
  }

  // ---- a new process --------------------------------------------------------------------

  /** SYS 1 saves the given state in the new process, which becomes ready and the
      newest child of its creator. */
  lemma CreateSaves(s: State, e: Event)
    requires Inv(s) && Enabled(s, e) && e.SysCreate? && s.free != []
    ensures var c, t := s.free[0], Step(s, e).0;
      && c < |t.saved| && t.saved[c] == e.init && c in t.ready
      && s.current.value < |s.tree.kids| == |t.tree.kids|
      && t.tree.kids[s.current.value] == [c] + s.tree.kids[s.current.value]
  {
    assert s.free[0] in s.free;
    var r := s.ready + [s.free[0]];
    assert r[|r| - 1] == s.free[0];
  }

  /** A new process is first loaded with the state SYS 1 was given for it. */
  lemma FirstRuns(ss: seq<State>, es: seq<Event>, k: nat, m: nat)
    requires IsRun(ss, es) && Inv(ss[0]) && k < |es| && es[k].SysCreate? && ss[k].free != []
    requires AwayBetween(ss, es, ss[k].free[0], k, m)
    ensures Inv(ss[m]) && Enabled(ss[m], es[m]) && Step(ss[m], es[m]).1 == Load(es[k].init)
  {
    RunKeeps(ss, es, k);
    assert Next(ss[k], es[k], ss[k + 1]);
    CreateSaves(ss[k], es[k]);
    ReadyResumes(ss, es, ss[k].free[0], es[k].init, k, m);
  }

  /** It is a descendant of whoever its creator descends from, and nobody else's
      ancestry changes; so it dies with any of them (Subtree.TerminateIs). */
  lemma {:induction false} CreateUnder(s: State, e: Event, x: Pid, y: Pid)
    requires Inv(s) && Enabled(s, e) && e.SysCreate? && s.free != [] && x < s.cfg.n && y < s.cfg.n
    requires x !in s.free || x == s.free[0]
    ensures Sound(Step(s, e).0.tree) && |Step(s, e).0.tree.kids| == s.cfg.n
    ensures var c := s.free[0];
      Under(Step(s, e).0.tree, x, y) <==>
        if x == c then y == c || Under(s.tree, s.current.value, y)
        else Under(s.tree, x, y)
    decreases s.tree.born[x] + (if x == s.free[0] then s.tree.clock + 1 else 0)
  {
    CreateKeeps(s, e.area, e.init);
    var c, t := s.free[0], Step(s, e).0;
    assert c in s.free;
    if x == c {
      CreateUnder(s, e, s.current.value, y);
    } else if s.tree.parent[x].Some? {
      assert x in s.tree.kids[s.tree.parent[x].value];
      CreateUnder(s, e, s.tree.parent[x].value, y);
    }
  }

  // ---- the clock and the start ----------------------------------------------------------

  /** A clock tick takes everybody off the clock's queue to the end of the ready
      queue, in order of arrival; the semaphore rises and the soft-block count falls by
      as many; no other queue and no other semaphore changes. */
  lemma TickReleases(s: State, e: Event)
    requires Inv(s) && e.IntClock?
    ensures var a, t := DevAddr(s.cfg, CLOCKSEM), Body(s, e);
      && t.ready == s.ready + QueueAt(s.blocked, a)
      && (forall b :: QueueAt(t.blocked, b) == if b == a then [] else QueueAt(s.blocked, b))
      && (forall b :: Val(t.sem, b) == Val(s.sem, b) + if b == a then |QueueAt(s.blocked, a)| else 0)
      && t.softBlockCount == s.softBlockCount - |QueueAt(s.blocked, a)|
      && t.free == s.free && t.saved == s.saved && t.tree == s.tree && t.processCount == s.processCount
    ensures s.current.Some? ==> Step(s, e) == (Body(s, e), Load(e.area))
    ensures s.current == None ==> Step(s, e) == Scheduler(Body(s, e))
  {
    BodyTick(s, e);
  }

  /** At the start every device semaphore is 0 and every other word is as the image has it. */
  lemma StartValues(cfg: Config, sem: map<Addr, int>, init: seq<Cpu>, a: Addr)
    requires Image(cfg, sem, init)
    ensures Val(FirstState(cfg, sem, init).sem, a) == if IsDev(cfg, a) then 0 else Val(sem, a)
  {
    ZeroDevsVal(cfg, sem, DEVICESEMNUM, a);
  }
}
