/** Order in the queues over whole runs: no overtaking on a semaphore, and
    bounded waiting on the ready queue. */
module Fairness {
  import opened Seqs
  import opened Forest
  import opened Nucleus
  import opened Keeps
  import opened Kill
  import opened Subtree
  import opened Safety
  import opened Counting

  /** The processes a step terminates. */
  ghost function Casualties(s: State, e: Event): set<Pid>
    requires Inv(s) && Enabled(s, e)
  {
    if e.SysTerminate? then Elems(Post(s.tree, s.current.value)) else {}
  }

  /** The step does not terminate x. */
  ghost predicate Spares(s: State, e: Event, x: Pid) {
    Inv(s) && Enabled(s, e) ==> x !in Casualties(s, e)
  }

  ghost predicate WaitsAt(s: State, a: Addr, x: Pid) {
    x in QueueAt(s.blocked, a)
  }

  /** How one step may change a queue: not at all, by losing its head, by losing
      casualties, by gaining one newcomer at the end, or, on a clock tick, by losing
      everybody. */
  ghost predicate FifoMove(q: seq<Pid>, r: seq<Pid>, dead: set<Pid>, tick: bool) {
    || r == q
    || (q != [] && r == q[1..])
    || (tick && r == [])
    || r == Without(q, dead)
    || (r != [] && r[|r| - 1] !in q && r == q + [r[|r| - 1]])
  }

  lemma BlockMove(s: State, a: Addr, area: Cpu, b: Addr)
    requires Shape(s) && s.current.Some? && Placed(s, s.current) && 0 < a < MAXINT
    ensures FifoMove(QueueAt(s.blocked, b), QueueAt(Block(s, a, area).blocked, b), {}, false)
  {
    BlockPlaced(s, a, area);
    assert s.current.value !in QueueAt(s.blocked, a);
  }

  lemma QueueStep(s: State, e: Event, a: Addr)
    requires Inv(s) && Enabled(s, e) && GoesOn(s, e)
    ensures FifoMove(QueueAt(s.blocked, a), QueueAt(Step(s, e).0.blocked, a), Casualties(s, e), e.IntClock?)
    ensures NoDup(QueueAt(s.blocked, a))
  {
    BodyKeeps(s, e);
    QueueBody(s, e, a);
    SchedulerFrame(Body(s, e));
  }

  lemma QueueBody(s: State, e: Event, a: Addr)
    requires Inv(s) && Enabled(s, e) && GoesOn(s, e)
    ensures FifoMove(QueueAt(s.blocked, a), QueueAt(Body(s, e).blocked, a), Casualties(s, e), e.IntClock?)
  {
    match e {
      case SysCreate(area, init) =>
      case SysTerminate => QueueTerminate(s, a);
      case SysV(b, area) => QueueV(s, e, a);
      case SysP(b, area) =>
        QueueBlock(s, b, area, a);
      case SysClock(area) => QueueBlock(s, DevAddr(s.cfg, CLOCKSEM), area, a);
      case SysIO(line, dev, termRead, area) =>
        QueueBlock(s, DevAddr(s.cfg, WaitIndex(line, dev, termRead)), area, a);
      case IntDevice(line, dev, status, transm, area) => QueueDevice(s, e, a);
      case IntQuantum(area) =>
      case IntClock(_) =>
    }
  }

  lemma QueueTerminate(s: State, a: Addr)
    requires Inv(s) && !s.waitFlag && CanTerminate(s, s.current.value)
    ensures QueueAt(Terminate(s, s.current.value).blocked, a) ==
      Without(QueueAt(s.blocked, a), Elems(Post(s.tree, s.current.value)))
  {
    TerminateClean(s, s.current.value);
  }

  lemma QueueBlock(s: State, b: Addr, area: Cpu, a: Addr)
    requires Inv(s) && !s.waitFlag && 0 < b < MAXINT
    ensures FifoMove(QueueAt(s.blocked, a), QueueAt(Block(AddSem(s, b, -1), b, area).blocked, a), {}, false)
  {
    BlockMove(AddSem(s, b, -1), b, area, a);
  }

  lemma QueueV(s: State, e: Event, a: Addr)
    requires Inv(s) && Enabled(s, e) && e.SysV?
    ensures FifoMove(QueueAt(s.blocked, a), QueueAt(Body(s, e).blocked, a), {}, false)
  {
    VFindsWaiter(s, s.current, e.a);
    if e.a in s.blocked {
      WakePlaced(AddSem(s, e.a, 1), s.current, e.a);
    }
  }

  lemma QueueDevice(s: State, e: Event, a: Addr)
    requires Inv(s) && Enabled(s, e) && e.IntDevice?
    ensures FifoMove(QueueAt(s.blocked, a), QueueAt(Body(s, e).blocked, a), {}, false)
  {
    var b := IntSem(s, e);
    if b in s.blocked {
      WakePlaced(AddSem(s, b, 1), Runner(s), b);
    }
  }

  /** x stood before y. If both are still queued, it still does; and y has not
      left, unless it was terminated, while x is still there. */
  lemma FifoOrder(q: seq<Pid>, r: seq<Pid>, dead: set<Pid>, tick: bool, x: Pid, y: Pid)
    requires NoDup(q) && FifoMove(q, r, dead, tick) && Before(q, x, y)
    ensures x in r && y in r ==> Before(r, x, y)
    ensures x in r && y !in dead ==> y in r
  {
    if r == Without(q, dead) {
      if x !in dead && y !in dead {
        WithoutKeepsOrder(q, dead, x, y);
      }
    } else if q != [] && r == q[1..] {
      assert y in q[1..];
    } else if r != [] && r != q {
      PosAppend(q, [r[|r| - 1]], x);
      PosAppend(q, [r[|r| - 1]], y);
    }
  }

  /** First come, first served: as long as x waits on a, nobody who came after
      it gets off that queue alive. */
  lemma {:induction false} NoOvertaking(ss: seq<State>, es: seq<Event>, a: Addr, x: Pid, y: Pid)
    requires IsRun(ss, es) && Inv(ss[0])
    requires Before(QueueAt(ss[0].blocked, a), x, y)
    requires forall i :: 0 <= i <= |es| ==> WaitsAt(ss[i], a, x)
    requires forall i :: 0 <= i < |es| ==> Spares(ss[i], es[i], y)
    ensures Before(QueueAt(ss[|es|].blocked, a), x, y)
    decreases |es|
  {
    if es != [] {
      var n := |es| - 1;
      RunShorter(ss, es);
      var rs, fs := ss[..|es|], es[..n];
      assert forall i :: 0 <= i <= n ==> rs[i] == ss[i];
      assert forall i :: 0 <= i < n ==> fs[i] == es[i];
      NoOvertaking(rs, fs, a, x, y);
      OvertakingStep(ss[n], es[n], a, x, y);
      assert Spares(ss[n], es[n], y) && WaitsAt(ss[|es|], a, x);
    }
  }

  lemma OvertakingStep(s: State, e: Event, a: Addr, x: Pid, y: Pid)
    requires Inv(s) && Enabled(s, e) && GoesOn(s, e)
    requires Before(QueueAt(s.blocked, a), x, y) && Spares(s, e, y)
    ensures WaitsAt(Step(s, e).0, a, x) ==> Before(QueueAt(Step(s, e).0.blocked, a), x, y)
  {
    QueueStep(s, e, a);
    FifoOrder(QueueAt(s.blocked, a), QueueAt(Step(s, e).0.blocked, a), Casualties(s, e), e.IntClock?, x, y);
  }

  // ---- the ready queue -----------------------------------------------------

  lemma ReadyBody(s: State, e: Event, x: Pid)
    requires Inv(s) && Enabled(s, e) && GoesOn(s, e)
    requires x in s.ready && x !in Casualties(s, e)
    ensures x in Body(s, e).ready && Pos(Body(s, e).ready, x) <= Pos(s.ready, x)
  {
    match e {
      case SysTerminate =>
        TerminateIs(s, s.current.value);
        PosWithout(s.ready, Casualties(s, e), x);
      case SysCreate(area, init) =>
        if s.free != [] { PosAppend(s.ready, [s.free[0]], x); }
      case SysV(b, area) =>
        VFindsWaiter(s, s.current, b);
        if b in s.blocked { PosAppend(s.ready, [s.blocked[b][0]], x); }
      case IntDevice(line, dev, status, transm, area) =>
        var b := IntSem(s, e);
        if b in s.blocked { PosAppend(s.ready, [s.blocked[b][0]], x); }
      case IntQuantum(area) => PosAppend(s.ready, [s.current.value], x);
      case IntClock(_) =>
        PosAppend(s.ready, QueueAt(s.blocked, DevAddr(s.cfg, CLOCKSEM)), x);
      case _ =>
    }
  }

  /** The step hands the processor to x. */
  ghost predicate Runs(t: State, x: Pid) {
    !t.waitFlag && t.current == Some(x)
  }

  /** A ready process that is neither dispatched nor terminated in a step moves
      up by one if the step dispatches somebody, and never moves back. */
  lemma ReadyStep(s: State, e: Event, x: Pid)
    requires Inv(s) && Enabled(s, e) && GoesOn(s, e)
    requires x in s.ready && x !in Casualties(s, e) && !Runs(Step(s, e).0, x)
    ensures var t := Step(s, e).0;
      x in t.ready && Pos(t.ready, x) + (if Dispatches(s, e) then 1 else 0) <= Pos(s.ready, x)
  {
    BodyKeeps(s, e);
    ReadyBody(s, e, x);
    SchedulerFrame(Body(s, e));
  }

  ghost function Dispatched(ss: seq<State>, es: seq<Event>): nat
    requires IsRun(ss, es) && Inv(ss[0])
    decreases |es|
  {
    if es == [] then 0
    else
      RunShorter(ss, es);
      var n := |es| - 1;
      Dispatched(ss[..|es|], es[..n]) + if Dispatches(ss[n], es[n]) then 1 else 0
  }

  /** The step neither dispatches nor terminates x. */
  ghost predicate PassesOver(s: State, e: Event, t: State, x: Pid) {
    !Runs(t, x) && Spares(s, e, x)
  }

  lemma {:induction false} StillReady(ss: seq<State>, es: seq<Event>, x: Pid)
    requires IsRun(ss, es) && Inv(ss[0]) && x in ss[0].ready
    requires forall i {:trigger es[i]} :: 0 <= i < |es| ==> PassesOver(ss[i], es[i], ss[i + 1], x)
    ensures x in ss[|es|].ready
    ensures Pos(ss[|es|].ready, x) + Dispatched(ss, es) <= Pos(ss[0].ready, x)
    decreases |es|
  {
    if es != [] {
      var n := |es| - 1;
      RunShorter(ss, es);
      var rs, fs := ss[..|es|], es[..n];
      forall i {:trigger fs[i]} | 0 <= i < n ensures PassesOver(rs[i], fs[i], rs[i + 1], x) {
        assert rs[i] == ss[i] && rs[i + 1] == ss[i + 1] && fs[i] == es[i];
      }
      StillReady(rs, fs, x);
      assert PassesOver(ss[n], es[n], ss[n + 1], x);
      ReadyStep(ss[n], es[n], x);
    }
  }

  /** Bounded waiting: a process at position k of the ready queue runs, or is
      terminated, before the scheduler has dispatched k + 1 times; and k < n. */
  lemma BoundedWaiting(ss: seq<State>, es: seq<Event>, x: Pid)
    requires IsRun(ss, es) && Inv(ss[0]) && x in ss[0].ready
    requires Dispatched(ss, es) > Pos(ss[0].ready, x)
    ensures Pos(ss[0].ready, x) < ss[0].cfg.n
    ensures exists i {:trigger es[i]} :: 0 <= i < |es| && (Runs(ss[i + 1], x) || !Spares(ss[i], es[i], x))
  {
    NoDupBound(ss[0].ready, ss[0].cfg.n);
    if forall i {:trigger es[i]} :: 0 <= i < |es| ==> PassesOver(ss[i], es[i], ss[i + 1], x) {
      StillReady(ss, es, x);
      assert false;
    }
  }

  // ---- where bounded waiting fails -------------------------------------------

  /** The machine waits while currentProcess still points at a pcb that SYS 2 has freed. */
  ghost predicate StaleWait(s: State) {
    s.waitFlag && s.current.Some?
  }

  lemma StaleTick(s: State, e: Event)
    requires Inv(s) && StaleWait(s) && e.IntClock?
    ensures GoesOn(s, e) && Step(s, e).1 == Load(e.area)
    ensures StaleWait(Step(s, e).0) && Step(s, e).0.current == s.current && !Dispatches(s, e)
    ensures forall x :: x in s.ready ==> x in Step(s, e).0.ready
  {
    BodyTick(s, e);
  }

  /** Clock ticks alone never end such a wait: nobody is dispatched, however many
      processes are ready. */
  lemma {:induction false} TicksDispatchNobody(ss: seq<State>, es: seq<Event>)
    requires IsRun(ss, es) && Inv(ss[0]) && StaleWait(ss[0])
    requires forall i :: 0 <= i < |es| ==> es[i].IntClock?
    ensures Dispatched(ss, es) == 0
    ensures StaleWait(ss[|es|]) && ss[|es|].current == ss[0].current
    ensures forall x :: x in ss[0].ready ==> x in ss[|es|].ready
    decreases |es|
  {
    if es != [] {
      var n := |es| - 1;
      RunShorter(ss, es);
      TicksDispatchNobody(ss[..|es|], es[..n]);
      StaleTick(ss[n], es[n]);
    }
  }

  /** And there are such runs of every length. */
  lemma {:induction false} TicksForever(s: State, n: nat, area: Cpu) returns (ss: seq<State>, es: seq<Event>)
    requires Inv(s) && StaleWait(s)
    ensures IsRun(ss, es) && ss[0] == s && |es| == n && forall i :: 0 <= i < n ==> es[i] == IntClock(area)
  {
    if n == 0 {
      ss, es := [s], [];
    } else {
      ss, es := TicksForever(s, n - 1, area);
      TicksDispatchNobody(ss, es);
      var t := ss[n - 1];
      RunKeeps(ss, es, n - 1);
      StaleTick(t, IntClock(area));
      ss, es := RunLonger(ss, es, IntClock(area));
    }
  }

  lemma RunLonger(ss: seq<State>, es: seq<Event>, e: Event) returns (ts: seq<State>, fs: seq<Event>)
    requires IsRun(ss, es) && Inv(ss[|es|]) && Enabled(ss[|es|], e) && GoesOn(ss[|es|], e)
    ensures ts == ss + [Step(ss[|es|], e).0] && fs == es + [e] && IsRun(ts, fs)
  {
    ts, fs := ss + [Step(ss[|es|], e).0], es + [e];
    forall i | 0 <= i < |fs| ensures Next(ts[i], fs[i], ts[i + 1]) {
      if i < |es| {
        assert Next(ss[i], es[i], ss[i + 1]);
      }
    }
  }
}
