/** Runs from main that reach the states in which the code fails. */
module Witnesses {
  import opened Seqs
  import opened Forest
  import opened Nucleus
  import opened Keeps
  import opened Kill
  import opened Subtree
  import opened Safety
  import opened Counting
  import opened Fairness

  // ---- a machine with n pcbs ------------------------------------------------

  const SEM: Addr := 100

  const CPU: Cpu := Cpu(0, 0)

  function Machine(n: nat): Config {
    Config(n, 0x1000)
  }

  /** What matters of a state with a running process: `user` is the value of SEM,
      `disk` that of disk 0. */
  datatype View = View(
    n: nat, run: Pid, free: seq<Pid>, ready: seq<Pid>, blocked: map<Addr, seq<Pid>>,
    kids: seq<seq<Pid>>, parent: seq<Option<Pid>>, user: int, disk: int)

  ghost predicate Shows(s: State, v: View) {
    && Reachable(s) && s.cfg == Machine(v.n) && s.current == Some(v.run) && !s.waitFlag
    && s.free == v.free && s.ready == v.ready && s.blocked == v.blocked
    && s.tree.kids == v.kids && s.tree.parent == v.parent
    && Val(s.sem, SEM) == v.user && Val(s.sem, DevAddr(s.cfg, 0)) == v.disk
  }

  lemma UserCell(n: nat)
    ensures !IsDev(Machine(n), SEM) && 0 < SEM < MAXINT && CPU.v0 == 0
    ensures IsDev(Machine(n), DevAddr(Machine(n), 0)) && IsDev(Machine(n), DevAddr(Machine(n), CLOCKSEM))
  {
  }

  /** A step that goes on leads to a reachable state. */
  lemma Reaches(s: State, e: Event)
    requires Reachable(s) && Enabled(s, e) && (Inv(s) ==> GoesOn(s, e))
    ensures Inv(s) && Reachable(Step(s, e).0)
  {
    AlwaysInv(s);
    var ss, es :| IsRun(ss, es) && Booted(ss[0]) && s == ss[|es|];
    var ts, fs := RunLonger(ss, es, e);
    assert ts[|fs|] == Step(s, e).0 && ts[0] == ss[0];
  }

  // ---- the moves ---------------------------------------------------------------

  lemma Boots(n: nat, w: View) returns (s: State)
    requires n >= 1
    requires w == View(n, 0, seq(n - 1, i requires 0 <= i < n - 1 => i + 1), [], map[],
                       seq(n, _ => []), seq(n, _ => None), 0, 0)
    ensures Shows(s, w)
  {
    var c, init := Machine(n), seq(n, _ => CPU);
    s := Scheduler(FirstState(c, map[], init)).0;
    assert Image(c, map[], init);
    assert Booted(s);
    var es: seq<Event> := [];
    assert IsRun([s], es) && [s][0] == s && [s][|es|] == s;
    ZeroDevsVal(c, map[], DEVICESEMNUM, SEM);
    ZeroDevsVal(c, map[], DEVICESEMNUM, DevAddr(c, 0));
    UserCell(n);
  }

  /** The running process creates the first free one. */
  lemma Creates(s: State, v: View, w: View) returns (t: State)
    requires Shows(s, v) && v.free != [] && v.run < |v.kids| && v.free[0] < |v.parent|
    requires w == v.(free := v.free[1..], ready := v.ready + [v.free[0]], kids := w.kids,
                     parent := v.parent[v.free[0] := Some(v.run)])
    requires |w.kids| == |v.kids| && w.kids[v.run] == [v.free[0]] + v.kids[v.run]
    requires forall x :: 0 <= x < |v.kids| && x != v.run ==> w.kids[x] == v.kids[x]
    ensures Shows(t, w)
  {
    assert w.kids == v.kids[v.run := [v.free[0]] + v.kids[v.run]];
    AlwaysInv(s);
    assert s.free[0] in s.free;
    t := Step(s, SysCreate(CPU, CPU)).0;
    Reaches(s, SysCreate(CPU, CPU));
  }

  /** The running process uses up its quantum. */
  lemma Yields(s: State, v: View, w: View) returns (t: State)
    requires Shows(s, v) && v.ready != []
    requires w == v.(run := v.ready[0], ready := v.ready[1..] + [v.run])
    ensures Shows(t, w)
  {
    AlwaysInv(s);
    var e := IntQuantum(CPU);
    t := Step(s, e).0;
    assert (s.ready + [v.run])[1..] == v.ready[1..] + [v.run];
    Reaches(s, e);
  }

  /** The running process joins the queue of a, which gives b. */
  predicate Joins(v: View, a: Addr, b: map<Addr, seq<Pid>>) {
    && b.Keys == v.blocked.Keys + {a} && b[a] == QueueAt(v.blocked, a) + [v.run]
    && forall c :: c in v.blocked && c != a ==> b[c] == v.blocked[c]
  }

  /** The running process does a P on SEM and blocks. */
  lemma Blocks(s: State, v: View, w: View) returns (t: State)
    requires Shows(s, v) && v.ready != [] && v.user <= 0
    requires w == v.(run := v.ready[0], ready := v.ready[1..], user := v.user - 1, blocked := w.blocked)
    requires Joins(v, SEM, w.blocked)
    ensures Shows(t, w)
  {
    AlwaysInv(s);
    UserCell(v.n);
    var e := SysP(SEM, CPU);
    t := Step(s, e).0;
    Reaches(s, e);
  }

  /** The running process waits for disk 0. */
  lemma Reads(s: State, v: View, w: View) returns (t: State)
    requires Shows(s, v) && v.ready != []
    requires w == v.(run := v.ready[0], ready := v.ready[1..], disk := v.disk - 1, blocked := w.blocked)
    requires Joins(v, DevAddr(Machine(v.n), 0), w.blocked)
    ensures Shows(t, w)
  {
    AlwaysInv(s);
    UserCell(v.n);
    var e := SysIO(DISKINT, 0, 0, CPU);
    t := Step(s, e).0;
    BodyIO(s, DISKINT, 0, 0, CPU);
    Reaches(s, e);
  }

  /** The running process waits for the clock. */
  lemma Sleeps(s: State, v: View, w: View) returns (t: State)
    requires Shows(s, v) && v.ready != []
    requires w == v.(run := v.ready[0], ready := v.ready[1..], blocked := w.blocked)
    requires Joins(v, DevAddr(Machine(v.n), CLOCKSEM), w.blocked)
    ensures Shows(t, w)
  {
    AlwaysInv(s);
    UserCell(v.n);
    var e := SysClock(CPU);
    t := Step(s, e).0;
    BodyClock(s, CPU);
    Reaches(s, e);
  }

  // ---- subtrees ------------------------------------------------------------------

  lemma PostLeaf(f: Forest, p: Pid)
    requires Sound(f) && p < |f.kids| && f.kids[p] == []
    ensures Post(f, p) == [p]
  {
  }

  lemma PostOne(f: Forest, p: Pid, c: Pid)
    requires Sound(f) && p < |f.kids| && f.kids[p] == [c] && c < |f.kids| && f.kids[c] == []
    ensures Post(f, p) == [c, p]
  {
    assert f.kids[p][0] == c;
    PostLeaf(f, c);
    assert Posts(f, p, [c]) == Post(f, c) + Posts(f, p, []);
  }

  lemma PostTwo(f: Forest, p: Pid, c: Pid, d: Pid)
    requires Sound(f) && p < |f.kids| && f.kids[p] == [c, d]
    requires c < |f.kids| && d < |f.kids| && f.kids[c] == [] && f.kids[d] == []
    ensures Post(f, p) == [c, d, p]
  {
    assert f.kids[p][0] == c && f.kids[p][1] == d;
    PostLeaf(f, c);
    PostLeaf(f, d);
    assert [c, d][1..] == [d];
    assert Posts(f, p, [d]) == Post(f, d) + Posts(f, p, []);
    assert Posts(f, p, [c, d]) == Post(f, c) + Posts(f, p, [d]);
  }

  // ---- the first process ends itself ---------------------------------------------

  /** SYS 2 of the first process goes through NULL. */
  lemma RootFaults() returns (s: State)
    ensures Reachable(s) && Enabled(s, SysTerminate) && Inv(s) && Step(s, SysTerminate).1 == Fault
  {
    s := Boots(1, View(1, 0, [], [], map[], [[]], [None], 0, 0));
    AlwaysInv(s);
    OutcomeExact(s, SysTerminate);
  }

  // ---- processes dropped from a queue ------------------------------------------------

  /** 0 has created 1, which has created 2; 0 and then 2 have done a P on a zero
      semaphore, and 1 runs. */
  lemma ChildBehindGrandparent() returns (s: State)
    ensures Shows(s, View(3, 1, [], [], map[SEM := [0, 2]], [[1], [2], []], [None, Some(0), Some(1)], -2, 0))
  {
    hide Shows, IsDev;
    var v0 := View(3, 0, [1, 2], [], map[], [[], [], []], [None, None, None], 0, 0);
    s := Boots(3, v0);
    var v1 := View(3, 0, [2], [1], map[], [[1], [], []], [None, Some(0), None], 0, 0);
    s := Creates(s, v0, v1);
    var v2 := View(3, 1, [2], [0], map[], [[1], [], []], [None, Some(0), None], 0, 0);
    s := Yields(s, v1, v2);
    var v3 := View(3, 1, [], [0, 2], map[], [[1], [2], []], [None, Some(0), Some(1)], 0, 0);
    s := Creates(s, v2, v3);
    var v4 := View(3, 0, [], [2, 1], map[], [[1], [2], []], [None, Some(0), Some(1)], 0, 0);
    s := Yields(s, v3, v4);
    var v5 := View(3, 2, [], [1], map[SEM := [0]], [[1], [2], []], [None, Some(0), Some(1)], -1, 0);
    s := Blocks(s, v4, v5);
    var v6 := View(3, 1, [], [], map[SEM := [0, 2]], [[1], [2], []], [None, Some(0), Some(1)], -2, 0);
    s := Blocks(s, v5, v6);
  }

  /** SYS 2 there kills 2, which is second, and with it drops the live process 0 from every queue. */
  lemma TerminateLoses() returns (s: State)
    ensures Reachable(s) && Enabled(s, SysTerminate) && Inv(s)
    ensures !FaultsWhen(s, SysTerminate) && !CanTerminate(s, s.current.value)
    ensures Live(Body(s, SysTerminate), 0) && Dropped(Body(s, SysTerminate), 0)
  {
    s := ChildBehindGrandparent();
    GrandparentDropped(s);
  }

  lemma GrandparentDropped(s: State)
    requires Shows(s, View(3, 1, [], [], map[SEM := [0, 2]], [[1], [2], []], [None, Some(0), Some(1)], -2, 0))
    ensures Inv(s) && Enabled(s, SysTerminate)
    ensures !FaultsWhen(s, SysTerminate) && !CanTerminate(s, s.current.value)
    ensures Live(Body(s, SysTerminate), 0) && Dropped(Body(s, SysTerminate), 0)
  {
    hide Related, Counted, Valued, Loose, Killed, MetSecond, Strands, Drops, Torn, Under, KillOrder, KillNull;
    AlwaysInv(s);
    GrandparentMet(s);
    CurrentRoot(s);
    DropsFirst(s, [2, 1]);
    TerminateIs(s, 1);
    GrandparentGone(s, [2, 1], Terminate(s, 1));
  }

  lemma DropsFirst(s: State, vs: seq<Pid>)
    requires vs != [] && (forall v :: v in vs ==> v < |s.semAdd|) && MetSecond(s, vs, 0)
    ensures Drops(s, vs)
  {
  }

  lemma GrandparentMet(s: State)
    requires Shows(s, View(3, 1, [], [], map[SEM := [0, 2]], [[1], [2], []], [None, Some(0), Some(1)], -2, 0)) && Inv(s)
    ensures |s.semAdd| == 3 && s.semAdd[2] == SEM && s.semAdd[0] == SEM
    ensures Post(s.tree, 1) == [2, 1] && MetSecond(s, [2, 1], 0) && !Strands(s, [2, 1])
  {
    PostOne(s.tree, 1, 2);
    assert 2 in s.blocked[SEM] && 0 in s.blocked[SEM];
    MetFirst(s, [2, 1]);
    assert !SameSem(s, 2, 1);
  }

  lemma GrandparentGone(s: State, vs: seq<Pid>, t: State)
    requires vs == [2, 1] && |s.semAdd| == 3 && s.semAdd[2] == SEM && s.semAdd[0] == SEM
    requires s.free == [] && s.ready == []
    requires MetSecond(s, vs, 0) && Killed(s, vs, t) && s.current == Some(1) && s.cfg.n == 3
    ensures Live(t, 0) && Dropped(t, 0)
  {
    assert DropsAt(s, vs, SEM) by { assert BlockedAt(s, vs[0], SEM); }
  }

  /** 0 has created 1, which has created 2 and 3 and runs. */
  lemma TwoChildren() returns (s: State)
    ensures Shows(s, View(4, 1, [], [0, 2, 3], map[], [[1], [3, 2], [], []], [None, Some(0), Some(1), Some(1)], 0, 0))
  {
    hide Shows, IsDev;
    var v0 := View(4, 0, [1, 2, 3], [], map[], [[], [], [], []], [None, None, None, None], 0, 0);
    s := Boots(4, v0);
    var v1 := View(4, 0, [2, 3], [1], map[], [[1], [], [], []], [None, Some(0), None, None], 0, 0);
    s := Creates(s, v0, v1);
    var v2 := View(4, 1, [2, 3], [0], map[], [[1], [], [], []], [None, Some(0), None, None], 0, 0);
    s := Yields(s, v1, v2);
    var v3 := View(4, 1, [3], [0, 2], map[], [[1], [2], [], []], [None, Some(0), Some(1), None], 0, 0);
    s := Creates(s, v2, v3);
    var v4 := View(4, 1, [], [0, 2, 3], map[], [[1], [3, 2], [], []], [None, Some(0), Some(1), Some(1)], 0, 0);
    s := Creates(s, v3, v4);
  }

  /** 0 has created 1, which has created 2 and 3; 2 and then 3 have done a P on a
      zero semaphore, and 1 runs. */
  lemma TwoChildrenQueued() returns (s: State)
    ensures Shows(s, View(4, 1, [], [0], map[SEM := [2, 3]], [[1], [3, 2], [], []],
                          [None, Some(0), Some(1), Some(1)], -2, 0))
  {
    hide Shows, IsDev;
    var v4 := View(4, 1, [], [0, 2, 3], map[], [[1], [3, 2], [], []], [None, Some(0), Some(1), Some(1)], 0, 0);
    s := TwoChildren();
    var v5 := v4.(run := 0, ready := [2, 3, 1]);
    s := Yields(s, v4, v5);
    var v6 := v4.(run := 2, ready := [3, 1, 0]);
    s := Yields(s, v5, v6);
    var v7 := v4.(run := 3, ready := [1, 0], blocked := map[SEM := [2]], user := -1);
    s := Blocks(s, v6, v7);
    var v8 := v4.(run := 1, ready := [0], blocked := map[SEM := [2, 3]], user := -2);
    s := Blocks(s, v7, v8);
  }

  /** SYS 2 there kills 3, which is second, does not find 2 any more, and goes through NULL. */
  lemma TerminateStrands() returns (s: State)
    ensures Reachable(s) && Enabled(s, SysTerminate) && Inv(s)
    ensures s.tree.parent[s.current.value].Some? && Step(s, SysTerminate).1 == Fault
  {
    s := TwoChildrenQueued();
    AlwaysInv(s);
    var vs := Post(s.tree, 1);
    PostTwo(s.tree, 1, 3, 2);
    assert 2 in s.blocked[SEM] && 3 in s.blocked[SEM];
    MetFirst(s, vs);
    assert SameSem(s, vs[0], vs[1]);
    OutcomeExact(s, SysTerminate);
  }

  // ---- a waiter killed at a device -----------------------------------------------

  /** 0 has created 1, which has created 2; 2 has issued SYS 8 for disk 0, and 1 runs. */
  lemma ChildAtDisk() returns (s: State)
    ensures Shows(s, View(3, 1, [], [0], map[DevAddr(Machine(3), 0) := [2]], [[1], [2], []],
                          [None, Some(0), Some(1)], 0, -1))
  {
    hide Shows, IsDev;
    var v0 := View(3, 0, [1, 2], [], map[], [[], [], []], [None, None, None], 0, 0);
    s := Boots(3, v0);
    var v1 := View(3, 0, [2], [1], map[], [[1], [], []], [None, Some(0), None], 0, 0);
    s := Creates(s, v0, v1);
    var v2 := View(3, 1, [2], [0], map[], [[1], [], []], [None, Some(0), None], 0, 0);
    s := Yields(s, v1, v2);
    var v3 := View(3, 1, [], [0, 2], map[], [[1], [2], []], [None, Some(0), Some(1)], 0, 0);
    s := Creates(s, v2, v3);
    var v4 := View(3, 0, [], [2, 1], map[], [[1], [2], []], [None, Some(0), Some(1)], 0, 0);
    s := Yields(s, v3, v4);
    var v5 := View(3, 2, [], [1, 0], map[], [[1], [2], []], [None, Some(0), Some(1)], 0, 0);
    s := Yields(s, v4, v5);
    var v6 := View(3, 1, [], [0], map[DevAddr(Machine(3), 0) := [2]], [[1], [2], []], [None, Some(0), Some(1)], 0, -1);
    s := Reads(s, v5, v6);
  }

  /** SYS 2 of a process whose subtree vs waits in nobody's way. */
  lemma Exits(s: State, vs: seq<Pid>)
    requires Reachable(s) && Inv(s) && !s.waitFlag
    requires vs == Post(s.tree, s.current.value) && CanTerminate(s, s.current.value)
    ensures var u := Body(s, SysTerminate);
      && (forall v :: v in vs ==> v < |s.semAdd|)
      && Killed(s, vs, u) && (forall p :: p in u.ready ==> p < |u.saved|)
      && (forall a :: QueueAt(u.blocked, a) == Without(QueueAt(s.blocked, a), Elems(vs)))
      && Step(s, SysTerminate) == Scheduler(u) && Decides(s, SysTerminate)
    ensures GoesOn(s, SysTerminate) ==> Reachable(Step(s, SysTerminate).0)
  {
    hide KillRoot, Related, Valued, Counted, Placed, Loose, Killed;
    CurrentRoot(s);
    TerminateClean(s, s.current.value);
    TerminateIs(s, s.current.value);
    BodyTerminate(s);
    StepDecides(s, SysTerminate);
    if GoesOn(s, SysTerminate) {
      Reaches(s, SysTerminate);
    }
    ReadySaved(Body(s, SysTerminate));
  }

  lemma ReadySaved(s: State)
    requires Core(s, None)
    ensures forall p :: p in s.ready ==> p < |s.saved|
  {
  }

  /** After 1 has terminated itself and 2, an interrupt of disk 0 goes through NULL. */
  lemma InterruptFaults() returns (s: State)
    ensures Reachable(s) && Enabled(s, IntDevice(DISKINT, 0, READY, 0, CPU)) && Inv(s)
    ensures Step(s, IntDevice(DISKINT, 0, READY, 0, CPU)).1 == Fault
  {
    var r := ChildAtDisk();
    DiskChildLeaves(r);
    s := Step(r, SysTerminate).0;
    AlwaysInv(s);
    OutcomeExact(s, IntDevice(DISKINT, 0, READY, 0, CPU));
  }

  lemma DiskChildLeaves(r: State)
    requires Shows(r, View(3, 1, [], [0], map[DevAddr(Machine(3), 0) := [2]], [[1], [2], []],
                           [None, Some(0), Some(1)], 0, -1))
    ensures Inv(r) && Enabled(r, SysTerminate)
    ensures var s, a := Step(r, SysTerminate).0, DevAddr(Machine(3), 0);
      Reachable(s) && s.cfg == Machine(3) && Val(s.sem, a) == -1 && QueueAt(s.blocked, a) == []
  {
    AlwaysInv(r);
    UserCell(3);
    var a := DevAddr(r.cfg, 0);
    DiskChildAlone(r);
    Exits(r, [2, 1]);
    var u := Body(r, SysTerminate);
    assert Without([0], Elems([2, 1])) == [0] && Without([2], Elems([2, 1])) == [];
    assert QueueAt(u.blocked, a) == [] && Val(u.sem, a) == -1;
  }

  lemma DiskChildAlone(r: State)
    requires Shows(r, View(3, 1, [], [0], map[DevAddr(Machine(3), 0) := [2]], [[1], [2], []],
                           [None, Some(0), Some(1)], 0, -1)) && Inv(r)
    ensures Post(r.tree, 1) == [2, 1] && CanTerminate(r, 1)
  {
    PostOne(r.tree, 1, 2);
    assert 2 in r.blocked[DevAddr(r.cfg, 0)];
    MetFirst(r, [2, 1]);
    assert QueueAt(r.blocked, r.semAdd[1]) == [];
  }

  // ---- a wait that clock ticks do not end --------------------------------------------

  /** 0 has created 1 and waits for the clock, and 1 runs. */
  lemma ParentAsleep() returns (s: State)
    ensures Shows(s, View(2, 1, [], [], map[DevAddr(Machine(2), CLOCKSEM) := [0]], [[1], []], [None, Some(0)], 0, 0))
  {
    hide Shows, IsDev;
    var v0 := View(2, 0, [1], [], map[], [[], []], [None, None], 0, 0);
    s := Boots(2, v0);
    var v1 := View(2, 0, [], [1], map[], [[1], []], [None, Some(0)], 0, 0);
    s := Creates(s, v0, v1);
    var v2 := View(2, 1, [], [], map[DevAddr(Machine(2), CLOCKSEM) := [0]], [[1], []], [None, Some(0)], 0, 0);
    s := Sleeps(s, v1, v2);
  }

  /** Then 1 terminates itself. */
  lemma StaleWaitReached() returns (s: State)
    ensures Reachable(s) && Inv(s) && StaleWait(s)
    ensures QueueAt(s.blocked, DevAddr(s.cfg, CLOCKSEM)) == [0]
  {
    var r := ParentAsleep();
    LastRunnerLeaves(r);
    s := Step(r, SysTerminate).0;
    AlwaysInv(s);
  }

  lemma LastRunnerLeaves(r: State)
    requires Shows(r, View(2, 1, [], [], map[DevAddr(Machine(2), CLOCKSEM) := [0]], [[1], []], [None, Some(0)], 0, 0))
    ensures Inv(r) && Enabled(r, SysTerminate)
    ensures var s := Step(r, SysTerminate).0;
      Reachable(s) && s.cfg == Machine(2) && StaleWait(s) && QueueAt(s.blocked, DevAddr(Machine(2), CLOCKSEM)) == [0]
  {
    AlwaysInv(r);
    LastRunnerAlone(r);
    Exits(r, [1]);
    var u, a := Body(r, SysTerminate), DevAddr(Machine(2), CLOCKSEM);
    assert Without([0], Elems([1])) == [0] && Without([], Elems([1])) == [];
    assert u.free == [1] && QueueAt(u.blocked, a) == [0];
    assert Live(u, 0) && SoftBlocked(u, 0);
  }

  lemma LastRunnerAlone(r: State)
    requires Shows(r, View(2, 1, [], [], map[DevAddr(Machine(2), CLOCKSEM) := [0]], [[1], []], [None, Some(0)], 0, 0))
    requires Inv(r)
    ensures Post(r.tree, 1) == [1] && CanTerminate(r, 1)
  {
    PostLeaf(r.tree, 1);
    MetFirst(r, [1]);
    assert QueueAt(r.blocked, r.semAdd[1]) == [];
  }

  /** From there the first tick makes 0 ready, and no number of further ticks runs it. */
  lemma TicksStarve(n: nat) returns (ss: seq<State>, es: seq<Event>)
    ensures IsRun(ss, es) && Reachable(ss[0]) && Inv(ss[0]) && |es| == n + 1
    ensures forall i :: 0 <= i < |es| ==> es[i] == IntClock(CPU)
    ensures 0 in ss[1].ready && 0 in ss[|es|].ready && Dispatched(ss, es) == 0
  {
    var s := StaleWaitReached();
    ss, es := TicksForever(s, n + 1, CPU);
    TicksDispatchNobody(ss, es);
    assert Next(ss[0], es[0], ss[0 + 1]);
    TickInWait(s, CPU);
    RunTailKeeps(ss, es);
    TicksDispatchNobody(ss[1..], es[1..]);
  }

  lemma RunTailKeeps(ss: seq<State>, es: seq<Event>)
    requires IsRun(ss, es) && Inv(ss[0]) && StaleWait(ss[0]) && es != [] && es[0].IntClock?
    ensures IsRun(ss[1..], es[1..]) && Inv(ss[1]) && StaleWait(ss[1])
  {
    RunKeeps(ss, es, 1);
    assert Next(ss[0], es[0], ss[0 + 1]);
    StaleTick(ss[0], es[0]);
    forall i | 0 <= i < |es| - 1 ensures Next(ss[1..][i], es[1..][i], ss[1..][i + 1]) {
      assert Next(ss[i + 1], es[i + 1], ss[i + 1 + 1]);
    }
  }
}
