/** Semaphores over whole runs: how many P operations complete, and how many
    processes can be inside at once. */
module Counting {
  import opened Seqs
  import opened Forest
  import opened Nucleus
  import opened Keeps
  import opened Kill
  import opened Subtree
  import opened Safety

  ghost predicate UserSem(s: State, a: Addr) {
    0 < a < MAXINT && !IsDev(s.cfg, a)
  }

  function IsP(e: Event, a: Addr): nat {
    if e.SysP? && e.a == a then 1 else 0
  }

  function IsV(e: Event, a: Addr): nat {
    if e.SysV? && e.a == a then 1 else 0
  }

  /** A P completes in this step: either a process gets through at once, or a V
      takes a waiter off the queue. */
  function Completes(s: State, e: Event, t: State, a: Addr): nat {
    if e.SysP? && e.a == a && |QueueAt(t.blocked, a)| == |QueueAt(s.blocked, a)| then 1
    else if e.SysV? && e.a == a && |QueueAt(t.blocked, a)| < |QueueAt(s.blocked, a)| then 1
    else 0
  }

  /** The waiters on a that this step kills. */
  ghost function KilledAt(s: State, e: Event, a: Addr): nat {
    if e.SysTerminate? && Inv(s) && !s.waitFlag then
      PostInRange(s.tree, s.current.value);
      Hits(s.semAdd, Post(s.tree, s.current.value), a)
    else 0
  }

  lemma {:induction false} HitsLeave(semAdd: seq<Addr>, q: seq<Pid>, vs: seq<Pid>, a: Addr)
    requires NoDup(q) && NoDup(vs) && forall v :: v in vs ==> v < |semAdd|
    requires forall v :: v in vs ==> (semAdd[v] == a <==> v in q)
    ensures |Without(q, Elems(vs))| + Hits(semAdd, vs, a) == |q|
    decreases |vs|
  {
    if vs == [] {
      WithoutNone(q, Elems(vs));
    } else {
      var v, rest := vs[0], vs[1..];
      assert v in vs && v !in rest && forall x :: x in rest ==> x in vs;
      var r := Without(q, {v});
      WithoutNoDup(q, {v});
      WithoutShrinks(q, v);
      HitsLeave(semAdd, r, rest, a);
      assert Elems(vs) == {v} + Elems(rest);
      WithoutTwice(q, {v}, Elems(rest));
    }
  }

  ghost predicate CountsStep(s: State, e: Event, t: State, a: Addr) {
    && Val(t.sem, a) == Val(s.sem, a) - IsP(e, a) + IsV(e, a) + KilledAt(s, e, a)
    && |QueueAt(t.blocked, a)| == |QueueAt(s.blocked, a)| + IsP(e, a) - Completes(s, e, t, a) - KilledAt(s, e, a)
    && t.cfg == s.cfg
  }

  lemma BodyFits(s: State, e: Event)
    requires Inv(s) && Enabled(s, e) && GoesOn(s, e)
    ensures |Body(s, e).saved| == |s.saved| && forall p :: p in Body(s, e).ready ==> p < |s.saved|
  {
    hide Body, Placed, Counted, Valued, Related;
    BodyKeeps(s, e);
    BodyCfg(s, e);
    ReadyInTable(Body(s, e), if CallsScheduler(s, e) then None else Runner(s));
  }

  lemma ReadyInTable(s: State, run: Option<Pid>)
    requires Core(s, run)
    ensures |s.saved| == s.cfg.n && forall p :: p in s.ready ==> p < s.cfg.n
  {
  }

  lemma BodyCfg(s: State, e: Event)
    requires Inv(s) && Enabled(s, e)
    ensures Body(s, e).cfg == s.cfg
  {
  }

  lemma StepCounts(s: State, e: Event, a: Addr)
    requires Inv(s) && Enabled(s, e) && GoesOn(s, e) && UserSem(s, a)
    ensures CountsStep(s, e, Step(s, e).0, a)
  {
    hide Inv, Enabled, GoesOn, Step, Body, BodyOk, Scheduler, UserSem;
    BodyKeeps(s, e);
    BodyFits(s, e);
    BodyCounts(s, e, a);
    SchedulerFrame(Body(s, e));
  }

  lemma BodyCounts(s: State, e: Event, a: Addr)
    requires Inv(s) && Enabled(s, e) && GoesOn(s, e) && UserSem(s, a)
    ensures CountsStep(s, e, Body(s, e), a)
  {
    match e {
      case SysCreate(area, init) => QuietCounts(s, e, a);
      case SysTerminate => KillCounts(s, a);
      case SysV(b, area) => VCounts(s, b, area, a);
      case SysP(b, area) => PCounts(s, b, area, a);
      case SysClock(area) => DevBlockElsewhere(s, CLOCKSEM, area, a);
      case SysIO(line, dev, termRead, area) => DevBlockElsewhere(s, WaitIndex(line, dev, termRead), area, a);
      case IntDevice(line, dev, status, transm, area) => DevWakeElsewhere(s, e, a);
      case IntQuantum(area) => QuietCounts(s, e, a);
      case IntClock(_) => TickElsewhere(s, e, a);
    }
  }

  lemma QuietCounts(s: State, e: Event, a: Addr)
    requires Inv(s) && Enabled(s, e) && (e.SysCreate? || e.IntQuantum?)
    ensures CountsStep(s, e, Body(s, e), a)
  {
  }

  lemma SchedulerFrame(u: State)
    requires forall p :: p in u.ready ==> p < |u.saved|
    ensures var t := Scheduler(u).0;
      && t.cfg == u.cfg && t.sem == u.sem && t.blocked == u.blocked && t.saved == u.saved
      && t.free == u.free && t.semAdd == u.semAdd && t.tree == u.tree
      && t.ready == if u.ready == [] then [] else u.ready[1..]
  {
  }

  lemma PCounts(s: State, b: Addr, area: Cpu, a: Addr)
    requires Inv(s) && Enabled(s, SysP(b, area)) && UserSem(s, a)
    ensures CountsStep(s, SysP(b, area), Body(s, SysP(b, area)), a)
  {
    if Val(s.sem, b) - 1 < 0 {
      BlockPlaced(AddSem(s, b, -1), b, area);
    }
  }

  lemma DevWakeElsewhere(s: State, e: Event, a: Addr)
    requires Inv(s) && Enabled(s, e) && e.IntDevice? && UserSem(s, a)
    ensures CountsStep(s, e, Body(s, e), a)
  {
    var b := IntSem(s, e);
    assert IsDev(s.cfg, b);
    if b in s.blocked {
      WakePlaced(AddSem(s, b, 1), Runner(s), b);
    }
  }

  lemma TickElsewhere(s: State, e: Event, a: Addr)
    requires Inv(s) && e.IntClock? && UserSem(s, a)
    ensures CountsStep(s, e, Body(s, e), a)
  {
    assert IsDev(s.cfg, DevAddr(s.cfg, CLOCKSEM));
  }

  /** SYS 2 shortens the queue of a by the victims there; a user semaphore rises by as many. */
  lemma KillMoves(s: State, a: Addr)
    requires Inv(s) && !s.waitFlag && CanTerminate(s, s.current.value) && 0 < a < MAXINT
    ensures var t := Terminate(s, s.current.value);
      && |QueueAt(t.blocked, a)| == |QueueAt(s.blocked, a)| - KilledAt(s, SysTerminate, a)
      && Val(t.sem, a) == Val(s.sem, a) + if IsDev(s.cfg, a) then 0 else KilledAt(s, SysTerminate, a)
  {
    hide *;
    KilledHere(s, a);
    var p := s.current.value;
    TerminateClean(s, p);
    TerminateIs(s, p);
    KilledCount(s, Post(s.tree, p), Terminate(s, p), a);
  }

  lemma KilledHere(s: State, a: Addr)
    requires Inv(s) && !s.waitFlag && CanTerminate(s, s.current.value)
    ensures Shape(s) && Sound(s.tree) && s.current.Some?
    ensures var p := s.current.value;
      && p < s.cfg.n && Core(s, s.current) && KillRoot(s, p) && !KillDrops(s, p)
      && (forall v :: v in Post(s.tree, p) ==> v < |s.semAdd|)
      && KilledAt(s, SysTerminate, a) == Hits(s.semAdd, Post(s.tree, p), a)
  {
    PostInRange(s.tree, s.current.value);
  }

  lemma KilledCount(s: State, vs: seq<Pid>, t: State, a: Addr)
    requires Core(s, s.current) && KillOrder(s, vs) && 0 < a < MAXINT && Killed(s, vs, t)
    requires QueueAt(t.blocked, a) == Without(QueueAt(s.blocked, a), Elems(vs))
    ensures |QueueAt(t.blocked, a)| == |QueueAt(s.blocked, a)| - Hits(s.semAdd, vs, a)
    ensures Val(t.sem, a) == Val(s.sem, a) + if IsDev(s.cfg, a) then 0 else Hits(s.semAdd, vs, a)
  {
    VictimsAt(s, vs, a);
    HitsLeave(s.semAdd, QueueAt(s.blocked, a), vs, a);
  }

  lemma VictimsAt(s: State, vs: seq<Pid>, a: Addr)
    requires Core(s, s.current) && KillOrder(s, vs) && 0 < a < MAXINT
    ensures NoDup(QueueAt(s.blocked, a))
    ensures forall v :: v in vs ==> (s.semAdd[v] == a <==> v in QueueAt(s.blocked, a))
  {
    forall v | v in vs ensures s.semAdd[v] == a <==> v in QueueAt(s.blocked, a) {
      assert v !in s.free;
    }
  }

  lemma KillCounts(s: State, a: Addr)
    requires Inv(s) && !s.waitFlag && CanTerminate(s, s.current.value) && UserSem(s, a)
    ensures var t := Terminate(s, s.current.value);
      && Val(t.sem, a) == Val(s.sem, a) + KilledAt(s, SysTerminate, a)
      && |QueueAt(t.blocked, a)| == |QueueAt(s.blocked, a)| - KilledAt(s, SysTerminate, a)
  {
    KillMoves(s, a);
  }

  lemma VCounts(s: State, b: Addr, area: Cpu, a: Addr)
    requires Inv(s) && Enabled(s, SysV(b, area)) && UserSem(s, a)
    ensures CountsStep(s, SysV(b, area), Verhogen(s, b, area).0, a)
  {
    VFindsWaiter(s, s.current, b);
    if b in s.blocked {
      WakePlaced(AddSem(s, b, 1), s.current, b);
    }
  }

  lemma DevBlockElsewhere(s: State, i: nat, area: Cpu, a: Addr)
    requires Inv(s) && !s.waitFlag && i < DEVICESEMNUM && UserSem(s, a)
    ensures var t := Block(AddSem(s, DevAddr(s.cfg, i), -1), DevAddr(s.cfg, i), area);
      Val(t.sem, a) == Val(s.sem, a) && QueueAt(t.blocked, a) == QueueAt(s.blocked, a)
  {
    BlockPlaced(AddSem(s, DevAddr(s.cfg, i), -1), DevAddr(s.cfg, i), area);
    assert DevAddr(s.cfg, i) != a;
  }

  // ---- totals over a run ---------------------------------------------------

  function Ps(es: seq<Event>, a: Addr): nat {
    if es == [] then 0 else Ps(es[..|es| - 1], a) + IsP(es[|es| - 1], a)
  }

  function Vs(es: seq<Event>, a: Addr): nat {
    if es == [] then 0 else Vs(es[..|es| - 1], a) + IsV(es[|es| - 1], a)
  }

  function Completed(ss: seq<State>, es: seq<Event>, a: Addr): nat
    requires |ss| == |es| + 1
  {
    if es == [] then 0
    else
      var n := |es| - 1;
      Completed(ss[..|es|], es[..n], a) + Completes(ss[n], es[n], ss[n + 1], a)
  }

  ghost function KilledWaiters(ss: seq<State>, es: seq<Event>, a: Addr): nat
    requires |ss| == |es| + 1
  {
    if es == [] then 0
    else
      var n := |es| - 1;
      KilledWaiters(ss[..|es|], es[..n], a) + KilledAt(ss[n], es[n], a)
  }

  lemma RunShorter(ss: seq<State>, es: seq<Event>)
    requires IsRun(ss, es) && Inv(ss[0]) && es != []
    ensures IsRun(ss[..|es|], es[..|es| - 1]) && ss[..|es|][0] == ss[0]
    ensures Inv(ss[|es| - 1]) && Next(ss[|es| - 1], es[|es| - 1], ss[|es|])
  {
    RunKeeps(ss, es, |es| - 1);
    forall i | 0 <= i < |es| - 1 ensures Next(ss[..|es|][i], es[..|es| - 1][i], ss[..|es|][i + 1]) {
      assert Next(ss[i], es[i], ss[i + 1]);
    }
    assert Next(ss[|es| - 1], es[|es| - 1], ss[|es| - 1 + 1]);
  }

  lemma {:induction false} RunCounts(ss: seq<State>, es: seq<Event>, a: Addr)
    requires IsRun(ss, es) && Inv(ss[0]) && UserSem(ss[0], a)
    ensures Val(ss[|es|].sem, a) == Val(ss[0].sem, a) - Ps(es, a) + Vs(es, a) + KilledWaiters(ss, es, a)
    ensures |QueueAt(ss[|es|].blocked, a)| ==
      |QueueAt(ss[0].blocked, a)| + Ps(es, a) - Completed(ss, es, a) - KilledWaiters(ss, es, a)
    ensures ss[|es|].cfg == ss[0].cfg
    decreases |es|
  {
    if es != [] {
      RunShorter(ss, es);
      RunCounts(ss[..|es|], es[..|es| - 1], a);
      StepCounts(ss[|es| - 1], es[|es| - 1], a);
    }
  }

  /** From a semaphore with value k >= 0 on, the P operations completed are as
      many as were attempted by processes not killed while waiting, but never
      more than k and the number of V operations together. */
  lemma CompletedExactly(ss: seq<State>, es: seq<Event>, a: Addr)
    requires IsRun(ss, es) && Inv(ss[0]) && UserSem(ss[0], a) && Val(ss[0].sem, a) >= 0
    ensures var tried := Ps(es, a) - KilledWaiters(ss, es, a);
            var allowed := Val(ss[0].sem, a) + Vs(es, a);
      Completed(ss, es, a) == if tried <= allowed then tried else allowed
  {
    RunCounts(ss, es, a);
    RunKeeps(ss, es, |es|);
    var s, t := ss[0], ss[|es|];
    assert |QueueAt(s.blocked, a)| == if Val(s.sem, a) < 0 then -Val(s.sem, a) else 0;
    assert |QueueAt(t.blocked, a)| == if Val(t.sem, a) < 0 then -Val(t.sem, a) else 0;
  }

  // ---- mutual exclusion ----------------------------------------------------

  /** The process that completes a P in this step. */
  function Enters(s: State, e: Event, t: State, a: Addr): set<Pid>
    requires Inv(s) && Enabled(s, e)
  {
    if Completes(s, e, t, a) == 0 then {}
    else if e.SysP? then {s.current.value}
    else QueueHead(s.blocked, a)
  }

  function QueueHead(blocked: map<Addr, seq<Pid>>, a: Addr): set<Pid> {
    var q := QueueAt(blocked, a);
    if q == [] then {} else {q[0]}
  }

  /** The processes that have completed a P on a, have not done their V since,
      and are alive. */
  ghost function Inside(ss: seq<State>, es: seq<Event>, a: Addr): set<Pid>
    requires IsRun(ss, es) && Inv(ss[0])
    decreases |es|
  {
    if es == [] then {}
    else
      RunShorter(ss, es);
      var n := |es| - 1;
      var before := Inside(ss[..|es|], es[..n], a);
      var s, e := ss[n], es[n];
      (before - Leaves(s, e, a)) + Enters(s, e, ss[n + 1], a)
  }

  ghost function Leaves(s: State, e: Event, a: Addr): set<Pid>
    requires Inv(s) && Enabled(s, e)
  {
    if e.SysV? && e.a == a then {s.current.value}
    else if e.SysTerminate? then Elems(Post(s.tree, s.current.value))
    else {}
  }

  /** Only processes inside do a V. */
  ghost predicate Paired(ss: seq<State>, es: seq<Event>, a: Addr)
    requires IsRun(ss, es) && Inv(ss[0])
    decreases |es|
  {
    es != [] ==>
      (RunShorter(ss, es);
       var n := |es| - 1;
       && Paired(ss[..|es|], es[..n], a)
       && (es[n].SysV? && es[n].a == a ==> ss[n].current.value in Inside(ss[..|es|], es[..n], a)))
  }

  lemma {:induction false} InsideCount(ss: seq<State>, es: seq<Event>, a: Addr)
    requires IsRun(ss, es) && Inv(ss[0]) && Paired(ss, es, a)
    ensures |Inside(ss, es, a)| + Vs(es, a) <= Completed(ss, es, a)
    decreases |es|
  {
    if es != [] {
      RunShorter(ss, es);
      var n := |es| - 1;
      var s, e, t := ss[n], es[n], ss[n + 1];
      InsideCount(ss[..|es|], es[..n], a);
      var before := Inside(ss[..|es|], es[..n], a);
      InsideStep(before, Leaves(s, e, a), Enters(s, e, t, a));
      if IsV(e, a) == 1 {
        assert before - Leaves(s, e, a) == before - {s.current.value};
      }
    }
  }

  lemma InsideStep(x: set<Pid>, leave: set<Pid>, enter: set<Pid>)
    ensures |(x - leave) + enter| <= |x| + |enter|
    ensures forall p :: leave == {p} && p in x ==> |(x - leave) + enter| <= |x| - 1 + |enter|
  {
    Subset(x - leave, x);
    assert |(x - leave) + enter| <= |x - leave| + |enter|;
  }

  lemma {:induction false} Subset(x: set<Pid>, y: set<Pid>)
    requires x <= y
    ensures |x| <= |y|
  {
    if x != {} {
      var p :| p in x;
      Subset(x - {p}, y - {p});
    }
  }

  /** A semaphore that starts at k never has more than k processes inside, as
      long as V is done only by a process inside. With k == 1 this is mutual
      exclusion. */
  lemma AtMostKInside(ss: seq<State>, es: seq<Event>, a: Addr)
    requires IsRun(ss, es) && Inv(ss[0]) && UserSem(ss[0], a) && Val(ss[0].sem, a) >= 0
    requires Paired(ss, es, a)
    ensures |Inside(ss, es, a)| <= Val(ss[0].sem, a)
  {
    CompletedExactly(ss, es, a);
    InsideCount(ss, es, a);
  }
}
