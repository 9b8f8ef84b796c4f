/** Waiting for a device and being woken by it. */
module Devices {
  import opened Seqs
  import opened Forest
  import opened Nucleus
  import opened Keeps
  import opened Kill
  import opened Subtree
  import opened Safety
  import opened Counting
  import opened Fairness

  // ---- device coordinates --------------------------------------------------

  /** Different devices wait on different semaphores, none of them the clock's. */
  lemma WaitIndexInjective(line: int, dev: int, read: int, line': int, dev': int, read': int)
    requires RealDevice(line, dev) && RealDevice(line', dev')
    ensures 0 <= WaitIndex(line, dev, read) < CLOCKSEM
    ensures WaitIndex(line, dev, read) == WaitIndex(line', dev', read') <==>
      line == line' && dev == dev' && (line == TERMINT ==> (read == 1 <==> read' == 1))
  {
  }

  /** The semaphores lie in the order of lines and devices, eight to a line, with the
      terminals' receivers after their transmitters and the clock last. */
  lemma WaitIndexLayout(line: int, dev: int, read: int)
    requires RealDevice(line, dev)
    ensures WaitIndex(DISKINT, 0, read) == 0 && WaitIndex(TERMINT, 7, 1) == CLOCKSEM - 1
    ensures dev < 7 ==> WaitIndex(line, dev + 1, read) == WaitIndex(line, dev, read) + 1
    ensures line < 6 ==> WaitIndex(line + 1, dev, read) == WaitIndex(line, dev, read) + 8
    ensures WaitIndex(TERMINT, dev, 0) == WaitIndex(6, dev, 0) + 8
    ensures WaitIndex(TERMINT, dev, 1) == WaitIndex(TERMINT, dev, 0) + 8
  {
    hide WaitIndex;
    LineStart(line, dev, read);
    LineStart(line, dev + 1, read);
    LineStart(line + 1, dev, read);
    LineStart(6, dev, 0);
    LineStart(TERMINT, dev, 0);
    LineStart(TERMINT, dev, 1);
    LineStart(DISKINT, 0, read);
    LineStart(TERMINT, 7, 1);
  }

  lemma LineStart(line: int, dev: int, read: int)
    ensures WaitIndex(line, dev, read) == 8 * line - 24 + dev + if line == TERMINT && read == 1 then 8 else 0
  {
  }

  /** An interrupt reports a terminal's receiver when its transmitter is merely ready. */
  predicate Receives(line: int, transm: nat) {
    line == TERMINT && transm % 16 == READY
  }

  /** The status register an interrupt is about: d_status, which is t_recv_status,
      for a disk, tape, network or printer and for a terminal's receiver;
      t_transm_status for a terminal's transmitter. */
  function Reported(e: Event): nat
    requires e.IntDevice?
  {
    if e.line < TERMINT || Receives(e.line, e.transm) then e.status else e.transm
  }

  /** An interrupt goes to the semaphore SYS 8 uses for the same sub-device,
      except that a receive interrupt does so exactly when the receive status
      is READY; with any other receive status it goes to the transmitter's. */
  lemma InterruptMeetsWait(line: int, dev: int, status: nat, transm: nat)
    requires RealDevice(line, dev)
    ensures !Receives(line, transm) ==> IntIndex(line, dev, status, transm) == WaitIndex(line, dev, 0)
    ensures Receives(line, transm) ==>
      (IntIndex(line, dev, status, transm) == WaitIndex(line, dev, 1) <==> status % 16 == READY)
    ensures Receives(line, transm) && status % 16 != READY ==>
      IntIndex(line, dev, status, transm) == WaitIndex(line, dev, 0)
  {
  }

  /** A received character, status 5, is charged to the transmitter. */
  lemma ReceivedCharMisses()
    ensures IntIndex(TERMINT, 0, 5, READY) == WaitIndex(TERMINT, 0, 0) != WaitIndex(TERMINT, 0, 1)
    ensures Reported(IntDevice(TERMINT, 0, 5, READY, Cpu(0, 0))) == 5
  {
    WaitIndexInjective(TERMINT, 0, 0, TERMINT, 0, 1);
  }

  // ---- saved processor states ----------------------------------------------

  lemma SavedBody(s: State, e: Event, x: Pid)
    requires Inv(s) && Enabled(s, e) && GoesOn(s, e)
    requires x < s.cfg.n && x !in s.free && Runner(s) != Some(x)
    requires |Body(s, e).saved| == |s.saved|
    ensures Body(s, e).saved[x] ==
      if e.IntDevice? && QueueAt(s.blocked, IntSem(s, e)) != [] && QueueAt(s.blocked, IntSem(s, e))[0] == x
      then s.saved[x].(v0 := Reported(e))
      else s.saved[x]
  {
    match e {
      case SysTerminate => TerminateIs(s, s.current.value);
      case SysCreate(area, init) =>
        if s.free != [] { assert s.free[0] in s.free; }
      case _ =>
    }
  }

  /** Outside the free list, the processor and the casualties of a step, a saved
      state changes only when the process is the waiter a device wakes, and then
      only in v0. */
  lemma SavedKept(s: State, e: Event, x: Pid)
    requires Inv(s) && Enabled(s, e) && GoesOn(s, e)
    requires x < s.cfg.n && x !in s.free && Runner(s) != Some(x)
    ensures |Step(s, e).0.saved| == |s.saved|
    ensures Step(s, e).0.saved[x] ==
      if e.IntDevice? && QueueAt(s.blocked, IntSem(s, e)) != [] && QueueAt(s.blocked, IntSem(s, e))[0] == x
      then s.saved[x].(v0 := Reported(e))
      else s.saved[x]
  {
    hide Body, Scheduler, Shape, Placed, Counted, Valued, Related;
    BodyKeeps(s, e);
    BodyFits(s, e);
    SavedBody(s, e, x);
    SchedulerFrame(Body(s, e));
  }

  /** A process that waits on a keeps its saved state as long as it waits. */
  lemma {:induction false} SavedWhileWaiting(ss: seq<State>, es: seq<Event>, a: Addr, x: Pid)
    requires IsRun(ss, es) && Inv(ss[0])
    requires forall i :: 0 <= i <= |es| ==> WaitsAt(ss[i], a, x)
    ensures x < |ss[0].saved| && x < |ss[|es|].saved| && ss[|es|].saved[x] == ss[0].saved[x]
    decreases |es|
  {
    assert WaitsAt(ss[0], a, x);
    if es != [] {
      var n := |es| - 1;
      RunShorter(ss, es);
      var rs, fs := ss[..|es|], es[..n];
      assert forall i :: 0 <= i <= n ==> rs[i] == ss[i];
      SavedWhileWaiting(rs, fs, a, x);
      assert WaitsAt(ss[n], a, x) && WaitsAt(ss[n + 1], a, x);
      SavedWaitStep(ss[n], es[n], a, x);
    }
  }

  lemma SavedWaitStep(s: State, e: Event, a: Addr, x: Pid)
    requires Inv(s) && Enabled(s, e) && GoesOn(s, e)
    requires WaitsAt(s, a, x) && WaitsAt(Step(s, e).0, a, x)
    ensures x < |s.saved| == |Step(s, e).0.saved| && Step(s, e).0.saved[x] == s.saved[x]
  {
    SavedKept(s, e, x);
    if e.IntDevice? && QueueAt(s.blocked, IntSem(s, e)) != [] && QueueAt(s.blocked, IntSem(s, e))[0] == x {
      WokenLeaves(s, e, x);
    }
  }

  /** The waiter a device interrupt wakes is the one at the head; it goes to the
      end of the ready queue with the status in v0, and waits nowhere any more. */
  lemma WokenLeaves(s: State, e: Event, x: Pid)
    requires Inv(s) && Enabled(s, e) && e.IntDevice?
    requires QueueAt(s.blocked, IntSem(s, e)) != [] && QueueAt(s.blocked, IntSem(s, e))[0] == x
    ensures x < |s.saved| && Body(s, e).ready == s.ready + [x]
    ensures x < |Body(s, e).saved| && Body(s, e).saved[x] == s.saved[x].(v0 := Reported(e))
    ensures forall b :: !WaitsAt(Step(s, e).0, b, x)
  {
    BodyDevice(s, e);
    assert x in s.blocked[IntSem(s, e)];
    SchedulerFrame(Body(s, e));
    assert Body(s, e).semAdd[x] == NULL;
    assert Step(s, e).0.blocked == Body(s, e).blocked;
  }

  /** The interrupt e comes from the sub-device that SYS 8 call w waits for, as
      far as the kernel can tell them apart. */
  predicate Answers(e: Event, w: Event)
    requires e.IntDevice? && w.SysIO?
  {
    && e.line == w.line && e.dev == w.dev
    && (if Receives(e.line, e.transm) then w.termRead == 1 && e.status % 16 == READY
        else e.line == TERMINT ==> w.termRead != 1)
  }

  lemma {:induction false} RunCfg(ss: seq<State>, es: seq<Event>)
    requires IsRun(ss, es) && Inv(ss[0])
    ensures ss[|es|].cfg == ss[0].cfg
    decreases |es|
  {
    if es != [] {
      RunShorter(ss, es);
      RunCfg(ss[..|es|], es[..|es| - 1]);
      BodyKeeps(ss[|es| - 1], es[|es| - 1]);
      SchedulerFrame(Body(ss[|es| - 1], es[|es| - 1]));
      BodyCfg(ss[|es| - 1], es[|es| - 1]);
    }
  }

  lemma RunTail(ss: seq<State>, es: seq<Event>)
    requires IsRun(ss, es) && Inv(ss[0]) && es != []
    ensures IsRun(ss[1..], es[1..]) && Inv(ss[1])
  {
    RunKeeps(ss, es, 1);
    forall i | 0 <= i < |es| - 1 ensures Next(ss[1..][i], es[1..][i], ss[1..][i + 1]) {
      assert Next(ss[i + 1], es[i + 1], ss[i + 1 + 1]);
    }
  }

  /** The process that issued SYS 8 waits with exactly the register file it had. */
  lemma IOSaves(s: State, e: Event)
    requires Inv(s) && Enabled(s, e) && e.SysIO? && GoesOn(s, e)
    ensures s.current.value < |Step(s, e).0.saved| && Step(s, e).0.saved[s.current.value] == e.area
  {
    BodyKeeps(s, e);
    SchedulerFrame(Body(s, e));
  }

  function WaitSem(c: Config, w: Event): Addr
    requires w.SysIO? && RealDevice(w.line, w.dev)
  {
    DevAddr(c, WaitIndex(w.line, w.dev, w.termRead))
  }

  lemma SavedSinceIO(ss: seq<State>, es: seq<Event>, p: Pid)
    requires IsRun(ss, es) && Inv(ss[0]) && es != []
    requires es[0].SysIO? && Enabled(ss[0], es[0]) && ss[0].current == Some(p)
    requires forall i :: 1 <= i <= |es| ==> WaitsAt(ss[i], WaitSem(ss[0].cfg, es[0]), p)
    ensures p < |ss[|es|].saved| && ss[|es|].saved[p] == es[0].area
  {
    assert Next(ss[0], es[0], ss[0 + 1]);
    IOSaves(ss[0], es[0]);
    RunTail(ss, es);
    var rs, fs := ss[1..], es[1..];
    assert forall i :: 0 <= i <= |fs| ==> rs[i] == ss[i + 1];
    SavedWhileWaiting(rs, fs, WaitSem(ss[0].cfg, es[0]), p);
  }

  lemma AnswerMeets(s: State, e: Event, w: Event)
    requires w.SysIO? && RealDevice(w.line, w.dev) && e.IntDevice? && Answers(e, w)
    ensures IntSem(s, e) == WaitSem(s.cfg, w)
  {
    InterruptMeetsWait(e.line, e.dev, e.status, e.transm);
  }

  /** SYS 8 and the interrupt that answers it: whatever the kernel does in
      between, a process that issued SYS 8 and heads that device's queue when the
      answer comes becomes ready with the register file it had, and the device's
      status in v0. */
  lemma WaitThenWake(ss: seq<State>, es: seq<Event>, p: Pid, e: Event)
    requires IsRun(ss, es) && Inv(ss[0]) && es != []
    requires es[0].SysIO? && Enabled(ss[0], es[0]) && ss[0].current == Some(p)
    requires forall i :: 1 <= i <= |es| ==> WaitsAt(ss[i], WaitSem(ss[0].cfg, es[0]), p)
    requires e.IntDevice? && Enabled(ss[|es|], e) && Answers(e, es[0])
    requires QueueHead(ss[|es|].blocked, WaitSem(ss[0].cfg, es[0])) == {p}
    ensures Inv(ss[|es|])
    ensures Body(ss[|es|], e).ready == ss[|es|].ready + [p]
    ensures p < |Body(ss[|es|], e).saved|
    ensures Body(ss[|es|], e).saved[p] == es[0].area.(v0 := Reported(e))
  {
    var t := ss[|es|];
    RunKeeps(ss, es, |es|);
    SavedSinceIO(ss, es, p);
    RunCfg(ss, es);
    AnswerMeets(t, e, es[0]);
    var q := QueueAt(t.blocked, IntSem(t, e));
    assert q != [] && q[0] in QueueHead(t.blocked, IntSem(t, e));
    WokenLeaves(t, e, p);
  }

  /** The processor is handed to p in this step with the state saved for it. */
  lemma DispatchLoads(s: State, e: Event, p: Pid)
    requires Inv(s) && Enabled(s, e) && GoesOn(s, e) && Runs(Step(s, e).0, p) && !Runs(s, p)
    ensures p < |Step(s, e).0.saved| && Step(s, e).1 == Load(Step(s, e).0.saved[p])
  {
    hide Body, Scheduler, Placed, Counted, Valued, Related;
    BodyKeeps(s, e);
    OutcomeOfScheduler(s, e);
    StepKeeps(s, e);
    RunnerInTable(Step(s, e).0, p);
  }

  lemma RunnerInTable(s: State, p: Pid)
    requires Inv(s) && Runs(s, p)
    ensures p < |s.saved|
  {
  }

  /** From the moment it is ready until it runs or is terminated, a process stays
      ready with the state saved for it. */
  lemma {:induction false} ReadyUntilRun(ss: seq<State>, es: seq<Event>, p: Pid, k: nat, m: nat, c: Cpu)
    requires IsRun(ss, es) && Inv(ss[0]) && k <= m <= |es|
    requires p in ss[k].ready && p < |ss[k].saved| && ss[k].saved[p] == c
    requires forall i :: k <= i < m ==> Spares(ss[i], es[i], p)
    requires forall i :: k <= i <= m ==> !Runs(ss[i], p)
    ensures Inv(ss[m]) && p in ss[m].ready && p < |ss[m].saved| && ss[m].saved[p] == c
    decreases m - k
  {
    hide Inv, Enabled, GoesOn, Step, Spares, Runs;
    RunKeeps(ss, es, m);
    if k < m {
      ReadyUntilRun(ss, es, p, k, m - 1, c);
      assert Next(ss[m - 1], es[m - 1], ss[m - 1 + 1]) && Spares(ss[m - 1], es[m - 1], p);
      ReadyKeepsSaved(ss[m - 1], es[m - 1], p);
    }
  }

  lemma ReadyKeepsSaved(s: State, e: Event, p: Pid)
    requires Inv(s) && Enabled(s, e) && GoesOn(s, e)
    requires p in s.ready && Spares(s, e, p) && !Runs(Step(s, e).0, p)
    ensures p in Step(s, e).0.ready
    ensures p < |s.saved| == |Step(s, e).0.saved| && Step(s, e).0.saved[p] == s.saved[p]
  {
    ReadyStep(s, e, p);
    ReadySaved(s, e, p);
  }

  lemma ReadySaved(s: State, e: Event, p: Pid)
    requires Inv(s) && Enabled(s, e) && GoesOn(s, e) && p in s.ready
    ensures p < |s.saved| == |Step(s, e).0.saved| && Step(s, e).0.saved[p] == s.saved[p]
  {
    SavedKept(s, e, p);
    ReadyWaitsNowhere(s, p);
    if e.IntDevice? && QueueAt(s.blocked, IntSem(s, e)) != [] {
      assert QueueAt(s.blocked, IntSem(s, e))[0] in QueueAt(s.blocked, IntSem(s, e));
    }
  }

  lemma ReadyWaitsNowhere(s: State, p: Pid)
    requires Inv(s) && p in s.ready
    ensures p < s.cfg.n && p !in s.free && Runner(s) != Some(p)
    ensures forall a :: p !in QueueAt(s.blocked, a)
  {
  }

  /** SYS 8 to its end: es[0] is the call, es[w] the interrupt that answers it, and
      the last event the one that hands the processor back. What LDST then loads
      is the register file of the call with the device's status in v0. */
  lemma IOReturns(ss: seq<State>, es: seq<Event>, p: Pid, w: nat)
    requires IsRun(ss, es) && Inv(ss[0]) && 0 < w < |es|
    requires es[0].SysIO? && Enabled(ss[0], es[0]) && ss[0].current == Some(p)
    requires forall i :: 1 <= i <= w ==> WaitsAt(ss[i], WaitSem(ss[0].cfg, es[0]), p)
    requires es[w].IntDevice? && Enabled(ss[w], es[w]) && Answers(es[w], es[0])
    requires QueueHead(ss[w].blocked, WaitSem(ss[0].cfg, es[0])) == {p}
    requires forall i :: w < i < |es| ==> Spares(ss[i], es[i], p) && !Runs(ss[i], p)
    requires Runs(ss[|es|], p)
    ensures Inv(ss[|es| - 1]) && Enabled(ss[|es| - 1], es[|es| - 1])
    ensures Step(ss[|es| - 1], es[|es| - 1]).1 ==
      Load(es[0].area.(v0 := Reported(es[w])))
  {
    var c := es[0].area.(v0 := Reported(es[w]));
    var n := |es| - 1;
    WokenWith(ss, es, p, w);
    RunKeeps(ss, es, n);
    assert Next(ss[n], es[n], ss[n + 1]);
    if w < n {
      ReadyUntilRun(ss, es, p, w + 1, n, c);
      ReadySaved(ss[n], es[n], p);
    }
    DispatchLoads(ss[n], es[n], p);
  }

  /** The answering interrupt leaves p with the status in v0, and ready unless it runs at once. */
  lemma WokenWith(ss: seq<State>, es: seq<Event>, p: Pid, w: nat)
    requires IsRun(ss, es) && Inv(ss[0]) && 0 < w < |es|
    requires es[0].SysIO? && Enabled(ss[0], es[0]) && ss[0].current == Some(p)
    requires forall i :: 1 <= i <= w ==> WaitsAt(ss[i], WaitSem(ss[0].cfg, es[0]), p)
    requires es[w].IntDevice? && Enabled(ss[w], es[w]) && Answers(es[w], es[0])
    requires QueueHead(ss[w].blocked, WaitSem(ss[0].cfg, es[0])) == {p}
    ensures p < |ss[w + 1].saved|
    ensures ss[w + 1].saved[p] == es[0].area.(v0 := Reported(es[w]))
    ensures !Runs(ss[w], p) && (Runs(ss[w + 1], p) || p in ss[w + 1].ready)
  {
    var rs, fs := ss[..w + 1], es[..w];
    RunPrefix(ss, es, w);
    WaitThenWake(rs, fs, p, es[w]);
    assert WaitsAt(ss[w], WaitSem(ss[0].cfg, es[0]), p);
    assert Next(ss[w], es[w], ss[w + 1]);
    WaiterIdle(ss[w], WaitSem(ss[0].cfg, es[0]), p);
    WakeDispatch(ss[w], es[w], p);
  }

  lemma WaiterIdle(s: State, a: Addr, p: Pid)
    requires Inv(s) && WaitsAt(s, a, p)
    ensures !Runs(s, p)
  {
  }

  lemma WakeDispatch(s: State, e: Event, p: Pid)
    requires Inv(s) && Enabled(s, e) && GoesOn(s, e) && e.IntDevice?
    requires Body(s, e).ready == s.ready + [p]
    ensures Step(s, e).0.saved == Body(s, e).saved
    ensures Runs(Step(s, e).0, p) || p in Step(s, e).0.ready
  {
    hide Body, Placed, Counted, Valued, Related;
    BodyKeeps(s, e);
    BodyFits(s, e);
    SchedulerFrame(Body(s, e));
    var r := Body(s, e).ready;
    assert r[|r| - 1] == p;
  }

  lemma RunPrefix(ss: seq<State>, es: seq<Event>, k: nat)
    requires IsRun(ss, es) && k <= |es|
    ensures IsRun(ss[..k + 1], es[..k])
  {
    forall i | 0 <= i < k ensures Next(ss[..k + 1][i], es[..k][i], ss[..k + 1][i + 1]) {
      assert Next(ss[i], es[i], ss[i + 1]);
    }
  }

  // ---- who waits for a device ---------------------------------------------

  /** In this step x issues SYS 8 for the device of semaphore i, or SYS 7 for the clock. */
  ghost predicate Asks(s: State, e: Event, i: nat, x: Pid) {
    && !s.waitFlag && s.current == Some(x)
    && ((e.SysIO? && WaitIndex(e.line, e.dev, e.termRead) == i) || (e.SysClock? && i == CLOCKSEM))
  }

  lemma AsksBody(s: State, e: Event, i: nat, x: Pid)
    requires Inv(s) && Enabled(s, e) && GoesOn(s, e) && i < DEVICESEMNUM
    requires !WaitsAt(s, DevAddr(s.cfg, i), x) && WaitsAt(Body(s, e), DevAddr(s.cfg, i), x)
    ensures Asks(s, e, i, x)
  {
    hide Counted, Valued, Related;
    match e {
      case SysTerminate => AsksKill(s, DevAddr(s.cfg, i), x);
      case SysV(b, area) => NoJoinV(s, e, DevAddr(s.cfg, i), x);
      case SysP(b, area) =>
        assert IsDev(s.cfg, DevAddr(s.cfg, i));
        JoinsBlock(s, b, area, DevAddr(s.cfg, i), x);
      case SysClock(area) => JoinsBlock(s, DevAddr(s.cfg, CLOCKSEM), area, DevAddr(s.cfg, i), x);
      case SysIO(line, dev, termRead, area) =>
        JoinsBlock(s, DevAddr(s.cfg, WaitIndex(line, dev, termRead)), area, DevAddr(s.cfg, i), x);
      case IntDevice(line, dev, status, transm, area) => NoJoinDevice(s, e, DevAddr(s.cfg, i), x);
      case _ =>
    }
  }

  lemma AsksKill(s: State, a: Addr, x: Pid)
    requires Inv(s) && !s.waitFlag && CanTerminate(s, s.current.value)
    ensures WaitsAt(Terminate(s, s.current.value), a, x) ==> WaitsAt(s, a, x)
  {
    TerminateClean(s, s.current.value);
  }

  lemma JoinsBlock(s: State, b: Addr, area: Cpu, a: Addr, x: Pid)
    requires Inv(s) && !s.waitFlag && 0 < b < MAXINT && !WaitsAt(s, a, x)
    ensures WaitsAt(Block(AddSem(s, b, -1), b, area), a, x) ==> a == b && s.current == Some(x)
  {
    BlockPlaced(AddSem(s, b, -1), b, area);
  }

  lemma NoJoinV(s: State, e: Event, a: Addr, x: Pid)
    requires Inv(s) && Enabled(s, e) && e.SysV?
    ensures WaitsAt(Body(s, e), a, x) ==> WaitsAt(s, a, x)
  {
    VFindsWaiter(s, s.current, e.a);
    if e.a in s.blocked {
      WakePlaced(AddSem(s, e.a, 1), s.current, e.a);
    }
  }

  lemma NoJoinDevice(s: State, e: Event, a: Addr, x: Pid)
    requires Inv(s) && Enabled(s, e) && e.IntDevice?
    ensures WaitsAt(Body(s, e), a, x) ==> WaitsAt(s, a, x)
  {
    if IntSem(s, e) in s.blocked {
      WakePlaced(AddSem(s, IntSem(s, e), 1), Runner(s), IntSem(s, e));
    }
  }

  lemma AsksStep(s: State, e: Event, i: nat, x: Pid)
    requires Inv(s) && Enabled(s, e) && GoesOn(s, e) && i < DEVICESEMNUM
    requires !WaitsAt(s, DevAddr(s.cfg, i), x) && WaitsAt(Step(s, e).0, DevAddr(s.cfg, i), x)
    ensures Asks(s, e, i, x)
  {
    hide Body, Scheduler, Shape, Placed, Counted, Valued, Related, Asks;
    BodyKeeps(s, e);
    BodyFits(s, e);
    SchedulerFrame(Body(s, e));
    AsksBody(s, e, i, x);
  }

  /** Whoever waits for a device issued SYS 8 for it during the run, and has waited ever since. */
  lemma {:induction false} WaiterAsked(ss: seq<State>, es: seq<Event>, i: nat, x: Pid) returns (j: nat)
    requires IsRun(ss, es) && Inv(ss[0]) && i < DEVICESEMNUM
    requires !WaitsAt(ss[0], DevAddr(ss[0].cfg, i), x) && WaitsAt(ss[|es|], DevAddr(ss[0].cfg, i), x)
    ensures j < |es| && Asks(ss[j], es[j], i, x)
    ensures forall k :: j < k <= |es| ==> WaitsAt(ss[k], DevAddr(ss[0].cfg, i), x)
    decreases |es|
  {
    hide Inv, Enabled, GoesOn, Step, WaitsAt, Asks;
    var n := |es| - 1;
    RunShorter(ss, es);
    RunCfg(ss[..|es|], es[..n]);
    if WaitsAt(ss[n], DevAddr(ss[0].cfg, i), x) {
      j := WaiterAsked(ss[..|es|], es[..n], i, x);
      assert forall k :: j < k <= n ==> WaitsAt(ss[..|es|][k], DevAddr(ss[0].cfg, i), x);
      forall k | j < k <= |es| ensures WaitsAt(ss[k], DevAddr(ss[0].cfg, i), x) {
        if k < |es| { assert ss[..|es|][k] == ss[k]; }
      }
    } else {
      j := n;
      AsksStep(ss[n], es[n], i, x);
    }
  }

  /** A device interrupt never wakes anybody else: in a run from main, the process
      it makes ready issued SYS 8 for the semaphore the interrupt is charged to, and
      has waited there ever since. */
  lemma InterruptWakesAsker(ss: seq<State>, es: seq<Event>, e: Event, x: Pid) returns (j: nat)
    requires IsRun(ss, es) && Booted(ss[0])
    requires e.IntDevice? && RealDevice(e.line, e.dev)
    requires WaitsAt(ss[|es|], IntSem(ss[|es|], e), x)
    ensures j < |es| && es[j].SysIO? && !ss[j].waitFlag && ss[j].current == Some(x)
    ensures WaitIndex(es[j].line, es[j].dev, es[j].termRead) == IntIndex(e.line, e.dev, e.status, e.transm)
    ensures forall k :: j < k <= |es| ==> WaitsAt(ss[k], IntSem(ss[|es|], e), x)
  {
    BootedInv(ss[0]);
    RunCfg(ss, es);
    j := WaiterAsked(ss, es, IntIndex(e.line, e.dev, e.status, e.transm), x);
  }

  lemma BootedInv(s: State)
    requires Booted(s)
    ensures Inv(s) && s.blocked == map[]
  {
    var cfg, sem, init :| Image(cfg, sem, init) && s == Scheduler(FirstState(cfg, sem, init)).0;
    BootKeeps(cfg, sem, init);
  }

  // ---- waiters killed at a device ------------------------------------------

  /** How far a device semaphore is below what its queue accounts for. */
  function Debt(s: State, i: nat): int {
    -Val(s.sem, DevAddr(s.cfg, i)) - |QueueAt(s.blocked, DevAddr(s.cfg, i))|
  }

  lemma DebtStep(s: State, e: Event, i: nat)
    requires Inv(s) && Enabled(s, e) && GoesOn(s, e) && i < DEVICESEMNUM
    ensures Debt(Step(s, e).0, i) == Debt(s, i) + KilledAt(s, e, DevAddr(s.cfg, i))
  {
    BodyKeeps(s, e);
    DebtBody(s, e, i);
    SchedulerFrame(Body(s, e));
  }

  lemma DebtBody(s: State, e: Event, i: nat)
    requires Inv(s) && Enabled(s, e) && GoesOn(s, e) && i < DEVICESEMNUM
    ensures Debt(Body(s, e), i) == Debt(s, i) + KilledAt(s, e, DevAddr(s.cfg, i))
  {
    match e {
      case SysCreate(area, init) =>
      case SysTerminate => DebtKill(s, i);
      case SysV(b, area) => DebtV(s, e, i);
      case SysP(b, area) => DebtP(s, e, i);
      case SysClock(area) => DebtBlock(s, CLOCKSEM, area, i);
      case SysIO(line, dev, termRead, area) => DebtBlock(s, WaitIndex(line, dev, termRead), area, i);
      case IntDevice(line, dev, status, transm, area) => DebtDevice(s, e, i);
      case IntQuantum(area) =>
      case IntClock(_) => DebtTick(s, e, i);
    }
  }

  lemma DebtDevice(s: State, e: Event, i: nat)
    requires Inv(s) && Enabled(s, e) && e.IntDevice? && i < DEVICESEMNUM
    ensures Debt(Body(s, e), i) == Debt(s, i)
  {
    if IntSem(s, e) in s.blocked {
      WakePlaced(AddSem(s, IntSem(s, e), 1), Runner(s), IntSem(s, e));
    }
  }

  lemma DebtTick(s: State, e: Event, i: nat)
    requires Inv(s) && e.IntClock? && i < DEVICESEMNUM
    ensures Debt(Body(s, e), i) == Debt(s, i)
  {
  }

  lemma DebtKill(s: State, i: nat)
    requires Inv(s) && !s.waitFlag && CanTerminate(s, s.current.value) && i < DEVICESEMNUM
    ensures Debt(Terminate(s, s.current.value), i) == Debt(s, i) + KilledAt(s, SysTerminate, DevAddr(s.cfg, i))
  {
    assert IsDev(s.cfg, DevAddr(s.cfg, i));
    KillMoves(s, DevAddr(s.cfg, i));
  }

  lemma DebtV(s: State, e: Event, i: nat)
    requires Inv(s) && Enabled(s, e) && e.SysV? && i < DEVICESEMNUM
    ensures Debt(Body(s, e), i) == Debt(s, i)
  {
    assert IsDev(s.cfg, DevAddr(s.cfg, i));
    VFindsWaiter(s, s.current, e.a);
    if e.a in s.blocked {
      WakePlaced(AddSem(s, e.a, 1), s.current, e.a);
    }
  }

  lemma DebtP(s: State, e: Event, i: nat)
    requires Inv(s) && Enabled(s, e) && e.SysP? && i < DEVICESEMNUM
    ensures Debt(Body(s, e), i) == Debt(s, i)
  {
    assert IsDev(s.cfg, DevAddr(s.cfg, i));
    if Val(s.sem, e.a) - 1 < 0 {
      BlockPlaced(AddSem(s, e.a, -1), e.a, e.area);
    }
  }

  lemma DebtBlock(s: State, j: nat, area: Cpu, i: nat)
    requires Inv(s) && !s.waitFlag && i < DEVICESEMNUM && j < DEVICESEMNUM
    ensures Debt(Block(AddSem(s, DevAddr(s.cfg, j), -1), DevAddr(s.cfg, j), area), i) == Debt(s, i)
  {
    BlockPlaced(AddSem(s, DevAddr(s.cfg, j), -1), DevAddr(s.cfg, j), area);
  }

  /** A device semaphore is always below zero by its waiters and by every waiter
      ever killed there. An interrupt that finds only killed ones goes through
      NULL (Safety.OutcomeExact). */
  lemma {:induction false} DebtIsKilledWaiters(ss: seq<State>, es: seq<Event>, i: nat)
    requires IsRun(ss, es) && Inv(ss[0]) && i < DEVICESEMNUM
    ensures Debt(ss[|es|], i) == Debt(ss[0], i) + KilledWaiters(ss, es, DevAddr(ss[0].cfg, i))
    decreases |es|
  {
    if es != [] {
      var n := |es| - 1;
      RunShorter(ss, es);
      DebtIsKilledWaiters(ss[..|es|], es[..n], i);
      RunCfg(ss[..|es|], es[..n]);
      DebtStep(ss[n], es[n], i);
    }
  }
}
