/** What the kernel's methods need to know about states and queues, apart from the heap. */
module KernelFacts {
  import opened Seqs
  import opened Forest
  import opened Nucleus
  import opened Keeps
  import opened Kill
  import opened Subtree
  import opened Safety
  import opened Pcbs
  import opened Asls

  // ---- queues that do not meet -----------------------------------------------

  /** q shares no process with a semaphore queue. */
  ghost predicate Elsewhere(blocked: map<Addr, seq<Pid>>, q: seq<Pid>) {
    forall a, x {:trigger x in blocked[a]} :: a in blocked && x in blocked[a] ==> x !in q
  }

  /** The free list, the ready queue and the semaphore queues are disjoint. */
  ghost predicate Disjoint(free: seq<Pid>, ready: seq<Pid>, blocked: map<Addr, seq<Pid>>) {
    && NoDup(free) && NoDup(ready)
    && (forall x :: x in free ==> x !in ready)
    && Elsewhere(blocked, free) && Elsewhere(blocked, ready)
  }

  lemma PlacedDisjoint(s: State, run: Option<Pid>)
    requires Shape(s) && Placed(s, run)
    ensures Loose(s, run) && Disjoint(s.free, s.ready, s.blocked)
    ensures forall x :: x in s.ready ==> x < s.cfg.n && x < |s.saved|
    ensures s.ready != [] ==> s.ready[0] in s.ready
  {
    PlacedLoose(s, run);
  }

  lemma LooseDisjoint(s: State, run: Option<Pid>)
    requires Shape(s) && Loose(s, run)
    ensures Disjoint(s.free, s.ready, s.blocked)
    ensures forall x :: x in s.ready ==> x < s.cfg.n && x < |s.saved|
    ensures s.ready != [] ==> s.ready[0] in s.ready
  {
  }

  /** p is on no queue at all. */
  ghost predicate Nowhere(free: seq<Pid>, ready: seq<Pid>, blocked: map<Addr, seq<Pid>>, p: Pid) {
    p !in free && p !in ready && NotQueued(blocked, p)
  }

  /** A process with no p_semAdd that is neither free nor ready is on no queue. */
  lemma RunnerNowhere(s: State, run: Option<Pid>, p: Pid)
    requires Shape(s) && Placed(s, run) && p < s.cfg.n && s.semAdd[p] == NULL && p !in s.free && p !in s.ready
    ensures Nowhere(s.free, s.ready, s.blocked, p)
  {
  }

  /** The running process is on no queue, and a descriptor can be had for it. */
  lemma CurrentNowhere(s: State)
    requires Shape(s) && s.current.Some? && Placed(s, s.current)
    ensures s.current.value < s.cfg.n == |s.semAdd| == |s.saved| && |s.blocked| < s.cfg.n
    ensures Nowhere(s.free, s.ready, s.blocked, s.current.value)
  {
    ActiveBound(s, s.current, s.current.value);
    RunnerNowhere(s, s.current, s.current.value);
  }

  /** The head waiter of a, once it has left the queue, is on no queue. */
  lemma HeadNowhere(s: State, run: Option<Pid>, a: Addr)
    requires Shape(s) && Placed(s, run) && a in s.blocked
    ensures s.blocked[a] != [] && s.blocked[a][0] < s.cfg.n == |s.semAdd| == |s.saved|
    ensures Nowhere(s.free, s.ready, SetQueue(s.blocked, a, s.blocked[a][1..]), s.blocked[a][0])
    ensures Disjoint(s.free, s.ready, SetQueue(s.blocked, a, s.blocked[a][1..]))
  {
    var q, b := s.blocked[a], SetQueue(s.blocked, a, s.blocked[a][1..]);
    assert q[0] in q;
    HeadNotInTail(q);
    forall c, x {:trigger x in b[c]} | c in b && x in b[c] ensures x in s.blocked[c] && x != q[0] {}
  }

  /** x has no relatives and no p_semAdd. */
  ghost predicate Spare(s: State, x: Pid) {
    && x < |s.tree.kids| == |s.tree.parent| == |s.semAdd|
    && s.tree.kids[x] == [] && s.tree.parent[x] == None && s.semAdd[x] == NULL
  }

  /** The head of the free list, once taken, is on no queue. */
  lemma HeadSpare(s: State)
    requires Inv(s) && !s.waitFlag
    ensures Sound(s.tree) && s.current.value < s.cfg.n
    ensures |s.tree.kids| == |s.tree.parent| == |s.semAdd| == |s.saved| == s.cfg.n
    ensures s.free != [] ==>
      && Spare(s, s.free[0]) && s.current.value != s.free[0]
      && Nowhere(s.free[1..], s.ready, s.blocked, s.free[0]) && Disjoint(s.free[1..], s.ready, s.blocked)
  {
    if s.free != [] {
      HeadNotInTail(s.free);
      assert s.free[0] in s.free;
    }
  }

  lemma QueueLabels(s: State, run: Option<Pid>, a: Addr)
    requires Shape(s) && Placed(s, run)
    ensures |s.semAdd| == s.cfg.n
    ensures forall x :: x in QueueAt(s.blocked, a) ==> x < s.cfg.n && s.semAdd[x] == a
  {
  }

  lemma DeviceRange(s: State, e: Event)
    requires Inv(s) && e.IntDevice? && RealDevice(e.line, e.dev)
    ensures 0 <= IntIndex(e.line, e.dev, e.status, e.transm) < CLOCKSEM && 0 < IntSem(s, e) < MAXINT
  {
  }

  lemma DeviceAddr(s: State, i: nat)
    requires Shape(s) && i < DEVICESEMNUM
    ensures 0 < DevAddr(s.cfg, i) < MAXINT
  {
  }

  lemma SoftPlaced(s: State)
    requires Shape(s) && Placed(s, None)
    ensures forall k :: Shape(s.(softBlockCount := k)) && Placed(s.(softBlockCount := k), None)
  {
  }

  lemma WakeShape(s: State, a: Addr)
    requires Shape(s) && a in s.blocked && s.blocked[a] != [] && s.blocked[a][0] < |s.semAdd|
    ensures Shape(Wake(s, a))
  {
  }

  // ---- what a victim leaves ----------------------------------------------------

  lemma RootFacts(s: State, p: Pid)
    requires Torn(s, s.current) && KillRoot(s, p)
    ensures Shape(s) && Sound(s.tree) && p < s.cfg.n == |s.tree.kids| == |s.tree.parent| == |s.tree.born|
    ensures |s.semAdd| == s.cfg.n && s.tree.born[p] < s.tree.clock
  {
  }

  /** What SYS 2 needs to know about the running process. */
  lemma CurrentFacts(s: State)
    requires Inv(s) && !s.waitFlag
    ensures s.current.Some? && Torn(s, s.current) && KillRoot(s, s.current.value) && Shape(s) && Sound(s.tree)
    ensures s.current.value < s.cfg.n == |s.tree.parent| == |s.tree.born|
    ensures !KillNull(s, s.current.value) ==>
      Shape(Terminate(s, s.current.value)) && Loose(Terminate(s, s.current.value), None)
  {
    CurrentRoot(s);
    CoreTorn(s, s.current);
    if !KillNull(s, s.current.value) {
      TerminateTorn(s, s.current.value);
    }
  }

  /** What the loop needs to know about a stage. */
  lemma StageOpen(s: State, p: Pid, i: nat)
    requires Torn(s, s.current) && KillRoot(s, p) && p < |s.tree.kids| && i <= |s.tree.kids[p]|
    requires Shape(s) && Sound(s.tree) && !StageNull(s, p, i)
    ensures var t := Stage(s, p, i);
      Shape(t) && Sound(t.tree) && p < |t.tree.kids| && t.tree.kids[p] == s.tree.kids[p][i..]
  {
    StageKeeps(s, p, i);
  }

  /** The child a turn of the loop takes has been cut off, and is younger than p. */
  lemma NextKid(s: State, p: Pid, i: nat)
    requires Torn(s, s.current) && KillRoot(s, p) && p < |s.tree.kids| && i < |s.tree.kids[p]|
    requires Shape(s) && Sound(s.tree) && !StageNull(s, p, i)
    ensures var c, t := Kid(s.tree, p, i), Stage(s, p, i);
      && Sound(t.tree) && p < |t.tree.kids| && t.tree.kids[p] != [] && Kid(t.tree, p, 0) == c
      && |t.tree.kids| == |t.tree.parent| == |s.tree.born| == s.cfg.n
      && var u := CutOff(t, c);
      && c < |u.tree.parent| == |u.tree.born| && u.tree.parent[c] == None
      && u.tree.clock == s.tree.clock && u.tree.born[c] == s.tree.born[c]
      && s.tree.born[p] < s.tree.born[c] < s.tree.clock
  {
    hide Loose, KillRoot, KillAll, ReachesNull;
    RootFacts(s, p);
    StageKeeps(s, p, i);
    assert Kid(s.tree, p, i) in s.tree.kids[p];
  }

  /** What is known of p when its turn comes. */
  lemma StageParts(s: State, p: Pid)
    requires Torn(s, s.current) && KillRoot(s, p) && p < |s.tree.kids|
    requires Shape(s) && Sound(s.tree) && !StageNull(s, p, |s.tree.kids[p]|)
    ensures var t := Stage(s, p, |s.tree.kids[p]|);
      && Shape(t) && Sound(t.tree) && Loose(t, t.current) && t.current == s.current
      && |t.semAdd| == |t.tree.parent| == |t.tree.kids| == |s.tree.parent| == s.cfg.n
      && (t.current == Some(p) ==> t.semAdd[p] == NULL)
      && (t.semAdd[p] == NULL ==> Found(t, p))
  {
    StageKeeps(s, p, |s.tree.kids[p]|);
  }

  lemma ShapeSizes(s: State)
    requires Shape(s) && Sound(s.tree)
    ensures |s.semAdd| == |s.saved| == |s.tree.kids| == |s.tree.parent| == s.cfg.n
  {
  }

  /** A process that has been cut off has no parent. */
  lemma CutLinks(s: State, p: Pid)
    requires Shape(s) && Sound(s.tree) && p < s.cfg.n && s.tree.kids[p] == []
    ensures var f := Prune(s.tree, {p});
      Sound(f) && |f.kids| == |f.parent| == s.cfg.n && f.kids[p] == [] && f.parent[p] == None
  {
    PruneSound(s.tree, {p});
  }

  /** A blocked victim, once outBlocked has taken it, is on no queue. */
  lemma WaitingLeft(s: State, v: Pid)
    requires Shape(s) && Loose(s, s.current) && v < s.cfg.n && v !in s.free && s.semAdd[v] != NULL
    ensures var a := s.semAdd[v];
      && 0 < a < MAXINT && s.current != Some(v)
      && (Found(s, v) <==> v in QueueAt(s.blocked, a))
      && (Found(s, v) ==>
            && a in s.blocked && s.blocked[a] != []
            && Nowhere(s.free, s.ready, OutBlocked(s.blocked, a, v), v)
            && Disjoint(s.free, s.ready, OutBlocked(s.blocked, a, v)))
  {
    if Found(s, v) {
      TakenAway(s, v);
    }
  }

  lemma TakenAway(s: State, v: Pid)
    requires Shape(s) && Loose(s, s.current) && v < s.cfg.n && v !in s.free && s.semAdd[v] != NULL && Found(s, v)
    ensures var a := s.semAdd[v];
      && a in s.blocked && s.blocked[a] != []
      && Nowhere(s.free, s.ready, OutBlocked(s.blocked, a, v), v)
      && Disjoint(s.free, s.ready, OutBlocked(s.blocked, a, v))
  {
    var b := OutBlocked(s.blocked, s.semAdd[v], v);
    forall c, x {:trigger x in b[c]} | c in b && x in b[c] ensures x != v && c in s.blocked && x in s.blocked[c] {
      AfterHeadExact(s.blocked[s.semAdd[v]], v);
    }
  }

  /** The guard of outBlocked asks whether v is second, or alone. */
  lemma AfterHeadExact(q: seq<Pid>, v: Pid)
    requires q != [] && v in q
    ensures AfterHead(q, v) <==> Second(q, v) || q == [v]
  {
  }

  /** What a blocked victim's death does to the counters and to its semaphore. */
  lemma WaitingKilled(s: State, v: Pid)
    requires v < |s.semAdd| && s.semAdd[v] != NULL && s.semAdd[v] in s.blocked
    requires s.blocked[s.semAdd[v]] != [] && v in s.blocked[s.semAdd[v]]
    ensures var a, t := s.semAdd[v], KillOne(s, v);
      && t.free == s.free + [v] && t.ready == s.ready && t.blocked == OutBlocked(s.blocked, a, v)
      && t.tree == s.tree && t.semAdd == s.semAdd[v := NULL] && t.saved == s.saved
      && t.cfg == s.cfg && t.current == s.current && t.waitFlag == s.waitFlag
      && t.processCount == s.processCount - 1
      && (IsDev(s.cfg, a) ==> t.softBlockCount == s.softBlockCount - 1 && t.sem == s.sem)
      && (!IsDev(s.cfg, a) ==> t.softBlockCount == s.softBlockCount && t.sem == s.sem[a := Val(s.sem, a) + 1])
  {
  }

  /** A victim that waits for nothing is on no queue but perhaps the ready queue. */
  lemma UnblockedLeft(s: State, v: Pid)
    requires Shape(s) && Loose(s, s.current) && v < s.cfg.n && v !in s.free && s.semAdd[v] == NULL
    ensures s.current == Some(v) ==> Nowhere(s.free, s.ready, s.blocked, v)
    ensures s.current != Some(v) ==> v in s.ready
    ensures Nowhere(s.free, Without(s.ready, {v}), s.blocked, v)
    ensures Disjoint(s.free, Without(s.ready, {v}), s.blocked)
    ensures s.semAdd[v := NULL] == s.semAdd
  {
    WithoutNoDup(s.ready, {v});
  }

  // ---- the mass V, one waiter at a time ----------------------------------------

  /** One turn of the clock interrupt's loop. */
  ghost function WakeOne(s: State, a: Addr): State
    requires a in s.blocked && s.blocked[a] != [] && s.blocked[a][0] < |s.semAdd|
  {
    AddSem(Wake(s, a), a, 1).(softBlockCount := s.softBlockCount - 1)
  }

  /** The state once the first k waiters of a have become ready. */
  ghost function WakeSome(s: State, a: Addr, k: nat): State
    requires a in s.blocked && k <= |s.blocked[a]|
  {
    var q := s.blocked[a];
    s.(blocked := SetQueue(s.blocked, a, q[k..]),
       semAdd := seq(|s.semAdd|, x requires 0 <= x < |s.semAdd| => if x in q[..k] then NULL else s.semAdd[x]),
       ready := s.ready + q[..k],
       sem := s.sem[a := Val(s.sem, a) + k],
       softBlockCount := s.softBlockCount - k)
  }

  /** The loop starts from the state the interrupt found and ends with the mass V. */
  lemma WakeSomeEnds(s: State, run: Option<Pid>, a: Addr)
    requires Shape(s) && Placed(s, run) && Valued(s) && a == DevAddr(s.cfg, CLOCKSEM) && a in s.blocked
    ensures s.blocked[a] != []
    ensures WakeSome(s, a, 0) == s
    ensures WakeSome(s, a, |s.blocked[a]|) == WakeAll(s, a)
  {
    var q := s.blocked[a];
    assert Val(s.sem, a) <= -|QueueAt(s.blocked, a)|;
    assert q[|q|..] == [] && q[..|q|] == q && q[0..] == q && q[..0] == [];
  }

  lemma WakeSomeStep(s: State, run: Option<Pid>, a: Addr, k: nat)
    requires Shape(s) && Placed(s, run) && a in s.blocked && k < |s.blocked[a]|
    ensures a in WakeSome(s, a, k + 1).blocked <==> k + 1 < |s.blocked[a]|
    ensures var t := WakeSome(s, a, k);
      && a in t.blocked && t.blocked[a] != [] && t.blocked[a][0] == s.blocked[a][k]
      && s.blocked[a][k] in s.blocked[a] && s.blocked[a][k] < |s.semAdd| == |t.semAdd|
      && WakeOne(t, a) == WakeSome(s, a, k + 1)
  {
    var q, t := s.blocked[a], WakeSome(s, a, k);
    assert q[k] in q;
    var u, v := WakeOne(t, a), WakeSome(s, a, k + 1);
    assert q[..k + 1] == q[..k] + [q[k]] && q[k..][1..] == q[k + 1..];
    assert u.semAdd == v.semAdd by {
      assert forall x :: x in q[..k + 1] <==> x in q[..k] || x == q[k];
    }
    assert u.blocked == v.blocked;
  }

  lemma TickPlaced(s: State)
    requires Inv(s)
    ensures Core(s, Runner(s)) && (s.current == None ==> Runner(s) == None)
    ensures DevAddr(s.cfg, CLOCKSEM) in s.blocked ==>
      var t := WakeAll(s, DevAddr(s.cfg, CLOCKSEM));
      t.current == s.current && Shape(t) && Placed(t, Runner(s))
  {
    if DevAddr(s.cfg, CLOCKSEM) in s.blocked {
      WakeAllKeeps(s, CLOCKSEM);
    }
  }

  lemma WakeOnePlaced(s: State, run: Option<Pid>, a: Addr)
    requires Shape(s) && Placed(s, run) && a in s.blocked
    ensures s.blocked[a] != [] && s.blocked[a][0] < |s.semAdd|
    ensures Shape(WakeOne(s, a)) && Placed(WakeOne(s, a), run)
  {
    WakePlaced(s, run, a);
    WakeShape(s, a);
    SamePlaces(Wake(s, a), WakeOne(s, a), run);
  }

  /** SYS 8 once it has decided to block. */
  lemma SoftBlockPlaced(s: State, a: Addr, area: Cpu)
    requires Shape(s) && s.current.Some? && Placed(s, s.current) && 0 < a < MAXINT
    ensures var p := s.current.value;
      p < |s.saved| == |s.semAdd| &&
      var t := InsertBlocked(AddSem(s.(saved := s.saved[p := area]), a, -1)
                               .(softBlockCount := s.softBlockCount + 1), a, p).(current := None);
      && Shape(t) && Placed(t, None)
      && t == Block(AddSem(s, a, -1), a, area).(softBlockCount := s.softBlockCount + 1)
  {
    BlockPlaced(AddSem(s, a, -1), a, area);
    SoftPlaced(Block(AddSem(s, a, -1), a, area));
  }

  lemma DisjointFacts(free: seq<Pid>, ready: seq<Pid>, blocked: map<Addr, seq<Pid>>)
    requires Disjoint(free, ready, blocked)
    ensures NoDup(free) && NoDup(ready) && Elsewhere(blocked, free) && Elsewhere(blocked, ready)
    ensures (forall x :: x in free ==> x !in ready) && (forall x :: x in ready ==> x !in free)
  {
  }

  /** Adding p, which is nowhere, to the queue that is changed. */
  lemma NowhereFacts(free: seq<Pid>, ready: seq<Pid>, blocked: map<Addr, seq<Pid>>, p: Pid)
    requires Disjoint(free, ready, blocked) && Nowhere(free, ready, blocked, p)
    ensures p !in free && p !in ready && NotQueued(blocked, p)
    ensures Elsewhere(blocked, free + [p]) && Elsewhere(blocked, ready + [p])
    ensures (forall x :: x in free ==> x !in ready + [p]) && (forall x :: x in ready ==> x !in free + [p])
    ensures forall a, x :: x in free || x in ready ==> x !in QueueAt(blocked, a) + [p]
  {
  }

  lemma QueueElsewhere(free: seq<Pid>, ready: seq<Pid>, blocked: map<Addr, seq<Pid>>, a: Addr)
    requires Disjoint(free, ready, blocked)
    ensures forall x :: x in free ==> x !in QueueAt(blocked, a)
    ensures forall x :: x in ready ==> x !in QueueAt(blocked, a)
  {
  }

  lemma RepresentsAway(t: seq<Pcb>, m: Links, m': Links, q: seq<Pid>, addrs: seq<Addr>, tails: seq<Pcb?>,
                       blocked: map<Addr, seq<Pid>>)
    requires Represents(t, m, addrs, tails, blocked) && SameOutside(m, m', q) && Elsewhere(blocked, q)
    ensures Represents(t, m', addrs, tails, blocked)
  {
    RepresentsKept(t, m, m', q, addrs, tails, blocked);
  }

  /** What the entry points ask for, event by event, and what their steps are. */
  lemma EntryFacts(s: State, e: Event)
    requires Inv(s) && Enabled(s, e)
    ensures e.IntDevice? ==> RealDevice(e.line, e.dev)
    ensures e.SysIO? ==> RealDevice(e.line, e.dev)
    ensures !e.IntDevice? && !e.IntClock? ==> !s.waitFlag
    ensures e.SysV? || e.SysP? ==> 0 < e.a < MAXINT
    ensures GoesOn(s, e) ==> Inv(Step(s, e).0) && Next(s, e, Step(s, e).0)
    ensures e.SysCreate? ==> Step(s, e) == CreateProcess(s, e.area, e.init)
    ensures e.SysTerminate? ==> Step(s, e) == TerminateProcess(s)
    ensures e.SysV? ==> Step(s, e) == Verhogen(s, e.a, e.area)
    ensures e.SysP? ==> Step(s, e) == Passeren(s, e.a, e.area)
    ensures e.SysClock? ==> Step(s, e) == WaitForClock(s, e.area)
    ensures e.SysIO? ==> Step(s, e) == WaitForIODevice(s, e.line, e.dev, e.termRead, e.area)
    ensures e.IntDevice? ==> Step(s, e) == DeviceInterrupt(s, e.line, e.dev, e.status, e.transm, e.area)
    ensures e.IntQuantum? ==> Step(s, e) == QuantumEnd(s, e.area)
    ensures e.IntClock? ==> Step(s, e) == ClockTick(s, e.area)
  {
    hide Inv;
    if GoesOn(s, e) {
      StepKeeps(s, e);
    }
  }

  // ---- the tables before the first process -------------------------------------

  function Indices(n: nat): seq<Pid> {
    seq(n, i requires 0 <= i < n => i)
  }

  function NoFamilies(n: nat): Forest {
    Forest(seq(n, _ => []), seq(n, _ => None), seq(n, _ => 0), 1)
  }

  /** All pcbs free, no semaphore active. */
  ghost function Blank(cfg: Config, mem: map<Addr, int>, saved: seq<Cpu>): State
    requires cfg.n >= 1
  {
    FirstState(cfg, mem, saved).(free := Indices(cfg.n), ready := [], processCount := 0)
  }

  lemma BlankFacts(s: State, cfg: Config, mem: map<Addr, int>, cpus: seq<Cpu>)
    requires cfg.n >= 1 && s == Blank(cfg, mem, cpus)
    ensures Disjoint(s.free, s.ready, s.blocked) && Sound(s.tree) && Spare(s, 0) && s.free != [] && s.free[0] == 0
    ensures s.tree == NoFamilies(cfg.n)
    ensures s.free[1..] == FirstState(cfg, mem, cpus).free
    ensures Nowhere(s.free[1..], [], map[], 0) && Disjoint(s.free[1..], [], map[])
  {
  }
}
