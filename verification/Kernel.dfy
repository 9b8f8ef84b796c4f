/** The nucleus in memory: the kernel globals on top of the pcb pool and the ASL.
    Each method is proved to take the state it represents to the state the
    machine in Nucleus prescribes. */
module Kernels {
  import opened Seqs
  import opened Forest
  import opened Nucleus
  import opened Keeps
  import opened Kill
  import opened Subtree
  import opened Safety
  import opened Pcbs
  import opened Asls
  import opened KernelFacts

  class Kernel {
    const cfg: Config
    const procTable: seq<Pcb>
    const pool: PcbPool
    const asl: Asl
    var processCount: int
    var softBlockCount: int
    var currentProcess: Pcb?
    var readyQue: Pcb?
    var waitFlag: bool
    var mem: map<Addr, int>
    ghost var st: State

    constructor (cfg: Config, procTable: seq<Pcb>, pool: PcbPool, asl: Asl, mem: map<Addr, int>)
      requires cfg.n >= 1
      ensures this.cfg == cfg && this.procTable == procTable && this.pool == pool && this.asl == asl
      ensures this.mem == mem && !waitFlag
    {
      this.cfg, this.procTable, this.pool, this.asl, this.mem := cfg, procTable, pool, asl, mem;
      processCount, softBlockCount, waitFlag := 0, 0, false;
      currentProcess, readyQue := null, null;
      st := FirstState(cfg, mem, []);
    }

    ghost function Ref(p: Option<Pid>): Pcb? {
      if p.Some? && p.value < |procTable| then procTable[p.value] else null
    }

    ghost function Footprint(): set<object> {
      {this, pool, asl} + asl.nodes + Objs(procTable)
    }

    /** The constants fit together. */
    ghost predicate Static() {
      && pool.procTable == procTable && asl.procTable == procTable
      && IsTable(procTable) && |procTable| == cfg.n
      && (forall i :: 0 <= i < |procTable| ==> InTable(procTable, procTable[i]))
    }

    /** The three kinds of queue. */
    ghost predicate QueueRep(free: seq<Pid>, ready: seq<Pid>, blocked: map<Addr, seq<Pid>>)
      reads this`readyQue, pool, asl, asl.nodes, Objs(procTable)`next, Objs(procTable)`prev
      reads Objs(pool.procTable)`next, Objs(pool.procTable)`prev, Objs(asl.procTable)`next, Objs(asl.procTable)`prev
    {
      && pool.Valid() && pool.free == free
      && asl.Valid() && asl.blocked == blocked
      && Ring(procTable, LinksOf(procTable), readyQue, ready)
    }

    /** The remaining pcb fields. */
    ghost predicate FieldRep(tree: Forest, semAdd: seq<Addr>, saved: seq<Cpu>)
      reads Objs(procTable)`prnt, Objs(procTable)`child, Objs(procTable)`sib, Objs(procTable)`prevsib
      reads Objs(procTable)`semAdd, Objs(procTable)`s
    {
      && Families(procTable, KinOf(procTable), tree)
      && SemAdds(procTable) == semAdd && Saved(procTable) == saved
    }

    /** The kernel globals. */
    ghost predicate GlobalRep()
      reads this`st, this`mem, this`currentProcess, this`waitFlag, this`processCount, this`softBlockCount
    {
      && st.cfg == cfg && mem == st.sem
      && currentProcess == Ref(st.current) && (st.current.Some? ==> st.current.value < cfg.n)
      && waitFlag == st.waitFlag
      && processCount == st.processCount && softBlockCount == st.softBlockCount
    }

    /** The memory represents the state st. */
    ghost predicate Rep()
      reads this, pool, asl, asl.nodes, Objs(pool.procTable), Objs(asl.procTable), Objs(procTable)
    {
      && Static() && QueueRep(st.free, st.ready, st.blocked)
      && FieldRep(st.tree, st.semAdd, st.saved) && GlobalRep()
    }

    lemma FieldsAt(s: State)
      requires FieldRep(s.tree, s.semAdd, s.saved)
      ensures |s.saved| == |s.semAdd| == |procTable|
      ensures forall x :: 0 <= x < |procTable| ==> procTable[x].s == s.saved[x] && procTable[x].semAdd == s.semAdd[x]
    {
    }

    // ---- the queues -----------------------------------------------------------

    /** removeProcQ(&readyQue). */
    method TakeReady(ghost f: seq<Pid>, ghost r: seq<Pid>, ghost b: map<Addr, seq<Pid>>) returns (p: Pcb?)
      requires Static() && QueueRep(f, r, b) && Disjoint(f, r, b)
      modifies this`readyQue, Objs(procTable)`next, Objs(procTable)`prev
      ensures QueueRep(f, if r == [] then [] else r[1..], b)
      ensures r == [] ==> p == null
      ensures r != [] ==> r[0] < |procTable| && p == procTable[r[0]]
    {
      hide Ring, SameOutside, NoDup, LinksOf, Represents, IsTable, Disjoint, Elsewhere, Asl.Listed;
      ghost var m := LinksOf(procTable);
      DisjointFacts(f, r, b);
      var tail;
      p, tail := RemoveProcQ(procTable, readyQue, r);
      ghost var m' := LinksOf(procTable);
      EmptyRing(procTable, m');
      RingEmpty(procTable, m, readyQue, r);
      RingKept(procTable, m, m', r, pool.pcbFree, f);
      RepresentsAway(procTable, m, m', r, asl.addrs, asl.tails, b);
      readyQue := tail;
      assert LinksOf(procTable) == m';
    }

    /** insertProcQ(&readyQue, p). */
    method PutReady(p: Pcb, ghost f: seq<Pid>, ghost r: seq<Pid>, ghost b: map<Addr, seq<Pid>>)
      requires Static() && QueueRep(f, r, b) && Disjoint(f, r, b)
      requires InTable(procTable, p) && Nowhere(f, r, b, p.id)
      modifies this`readyQue, Objs(procTable)`next, Objs(procTable)`prev
      ensures QueueRep(f, r + [p.id], b)
    {
      hide Ring, SameOutside, NoDup, LinksOf, Represents, IsTable, Disjoint, Elsewhere, Nowhere, Asl.Listed;
      ghost var m := LinksOf(procTable);
      DisjointFacts(f, r, b);
      NowhereFacts(f, r, b, p.id);
      var tail := InsertProcQ(procTable, readyQue, p, r);
      ghost var m' := LinksOf(procTable);
      RingKept(procTable, m, m', r + [p.id], pool.pcbFree, f);
      RepresentsAway(procTable, m, m', r + [p.id], asl.addrs, asl.tails, b);
      readyQue := tail;
      assert LinksOf(procTable) == m';
    }

    /** outProcQ(&readyQue, p). */
    method DropReady(p: Pcb, ghost f: seq<Pid>, ghost r: seq<Pid>, ghost b: map<Addr, seq<Pid>>) returns (q: Pcb?)
      requires Static() && QueueRep(f, r, b) && Disjoint(f, r, b) && InTable(procTable, p)
      modifies this`readyQue, Objs(procTable)`next, Objs(procTable)`prev
      ensures q == if p.id in r then p else null
      ensures QueueRep(f, Without(r, {p.id}), b)
    {
      hide Ring, SameOutside, NoDup, LinksOf, Represents, IsTable, Disjoint, Elsewhere, Asl.Listed;
      ghost var m := LinksOf(procTable);
      DisjointFacts(f, r, b);
      var tail;
      q, tail := OutProcQ(procTable, readyQue, p, r);
      ghost var m' := LinksOf(procTable);
      RingKept(procTable, m, m', r, pool.pcbFree, f);
      RepresentsAway(procTable, m, m', r, asl.addrs, asl.tails, b);
      readyQue := tail;
      assert LinksOf(procTable) == m';
    }

    /** insertBlocked(a, p), when the caller knows that a descriptor can be had. */
    method JoinSem(a: Addr, p: Pcb, ghost f: seq<Pid>, ghost r: seq<Pid>, ghost b: map<Addr, seq<Pid>>)
        returns (full: bool)
      requires Static() && QueueRep(f, r, b) && Disjoint(f, r, b) && 0 < a < MAXINT
      requires InTable(procTable, p) && Nowhere(f, r, b, p.id)
      modifies asl, asl.nodes, Objs(procTable)`next, Objs(procTable)`prev, p`semAdd
      ensures full <==> a !in b && |b| == |procTable|
      ensures !full ==> p.semAdd == a && QueueRep(f, r, b[a := QueueAt(b, a) + [p.id]])
      ensures full ==> p.semAdd == old(p.semAdd) && QueueRep(f, r, b)
    {
      hide Ring, SameOutside, LinksOf, Represents, IsTable, Disjoint, Elsewhere, Nowhere, NotQueued, Asl.Listed;
      ghost var m := LinksOf(procTable);
      NowhereFacts(f, r, b, p.id);
      full := asl.InsertBlocked(a, p);
      ghost var m' := LinksOf(procTable);
      RingKept(procTable, m, m', QueueAt(b, a) + [p.id], pool.pcbFree, f);
      RingKept(procTable, m, m', QueueAt(b, a) + [p.id], readyQue, r);
    }

    /** removeBlocked(a). */
    method LeaveSem(a: Addr, ghost f: seq<Pid>, ghost r: seq<Pid>, ghost b: map<Addr, seq<Pid>>) returns (p: Pcb?)
      requires Static() && QueueRep(f, r, b) && Disjoint(f, r, b) && 0 < a < MAXINT
      requires forall x :: x in QueueAt(b, a) && x < |procTable| ==> procTable[x].semAdd == a
      modifies asl, asl.nodes, Objs(procTable)`next, Objs(procTable)`prev
      ensures a !in b ==> p == null && QueueRep(f, r, b)
      ensures a in b ==>
        && b[a] != [] && b[a][0] < |procTable| && p == procTable[b[a][0]]
        && QueueRep(f, r, SetQueue(b, a, b[a][1..]))
    {
      hide Ring, SameOutside, LinksOf, Represents, IsTable, Disjoint, Elsewhere, Asl.Listed;
      ghost var m := LinksOf(procTable);
      QueueElsewhere(f, r, b, a);
      p := asl.RemoveBlocked(a);
      ghost var m' := LinksOf(procTable);
      RingKept(procTable, m, m', QueueAt(b, a), pool.pcbFree, f);
      RingKept(procTable, m, m', QueueAt(b, a), readyQue, r);
    }

    /** headBlocked(a), as a test for a waiter. */
    method HeadSem(a: Addr, ghost f: seq<Pid>, ghost r: seq<Pid>, ghost b: map<Addr, seq<Pid>>) returns (p: Pcb?)
      requires Static() && QueueRep(f, r, b) && 0 < a < MAXINT
      ensures p != null <==> a in b
      ensures a in b ==> b[a] != []
    {
      hide Ring, LinksOf, Represents, IsTable, Asl.Listed;
      p := asl.HeadBlocked(a);
    }

    /** outBlocked(p), for a blocked process; NULL if it is not on its semaphore's queue. */
    method OutSem(p: Pcb, ghost f: seq<Pid>, ghost r: seq<Pid>, ghost b: map<Addr, seq<Pid>>) returns (q: Pcb?)
      requires Static() && QueueRep(f, r, b) && Disjoint(f, r, b) && 0 < p.semAdd < MAXINT
      requires InTable(procTable, p)
      modifies asl, asl.nodes, Objs(procTable)`next, Objs(procTable)`prev
      ensures q == if p.id in QueueAt(b, p.semAdd) then p else null
      ensures q != null ==>
        && p.semAdd in b && b[p.semAdd] != []
        && QueueRep(f, r, Nucleus.OutBlocked(b, p.semAdd, p.id))
    {
      hide Ring, SameOutside, LinksOf, Represents, IsTable, Disjoint, Elsewhere, Asl.Listed, Nucleus.OutBlocked;
      ghost var m, a := LinksOf(procTable), p.semAdd;
      QueueElsewhere(f, r, b, a);
      var fault;
      q, fault := asl.OutBlocked(p);
      ghost var m' := LinksOf(procTable);
      RingKept(procTable, m, m', QueueAt(b, a), pool.pcbFree, f);
      RingKept(procTable, m, m', QueueAt(b, a), readyQue, r);
    }

    /** freePcb(p). */
    method Release(p: Pcb, ghost f: seq<Pid>, ghost r: seq<Pid>, ghost b: map<Addr, seq<Pid>>)
      requires Static() && QueueRep(f, r, b) && Disjoint(f, r, b)
      requires InTable(procTable, p) && Nowhere(f, r, b, p.id)
      modifies pool, Objs(procTable)`next, Objs(procTable)`prev
      modifies p`child, p`sib, p`prevsib, p`prnt, p`semAdd
      ensures QueueRep(f + [p.id], r, b) && Clean(p)
    {
      hide Ring, SameOutside, NoDup, LinksOf, Represents, IsTable, Disjoint, Elsewhere, Nowhere, Clean, Asl.Listed;
      ghost var m := LinksOf(procTable);
      DisjointFacts(f, r, b);
      NowhereFacts(f, r, b, p.id);
      pool.FreePcb(p);
      ghost var m' := LinksOf(procTable);
      RingKept(procTable, m, m', f + [p.id], readyQue, r);
      RepresentsAway(procTable, m, m', f + [p.id], asl.addrs, asl.tails, b);
    }

    /** allocPcb(). */
    method Acquire(ghost f: seq<Pid>, ghost r: seq<Pid>, ghost b: map<Addr, seq<Pid>>) returns (p: Pcb?)
      requires Static() && QueueRep(f, r, b) && Disjoint(f, r, b)
      modifies pool, Objs(procTable)`next, Objs(procTable)`prev
      modifies pool.FreeHead()`child, pool.FreeHead()`sib, pool.FreeHead()`prevsib
      modifies pool.FreeHead()`prnt, pool.FreeHead()`semAdd
      ensures f == [] ==> p == null && QueueRep(f, r, b)
      ensures f == [] ==> KinOf(procTable) == old(KinOf(procTable)) && SemAdds(procTable) == old(SemAdds(procTable))
      ensures f != [] ==> forall q :: q in procTable && q != procTable[f[0]] ==>
        q.prnt == old(q.prnt) && q.child == old(q.child) && q.sib == old(q.sib) && q.prevsib == old(q.prevsib)
        && q.semAdd == old(q.semAdd)
      ensures f != [] ==>
        f[0] < |procTable| && p == procTable[f[0]] && Clean(p) && QueueRep(f[1..], r, b)
    {
      hide Ring, SameOutside, NoDup, LinksOf, Represents, IsTable, Disjoint, Elsewhere, Clean, Asl.Listed;
      ghost var m := LinksOf(procTable);
      DisjointFacts(f, r, b);
      RingEmpty(procTable, m, pool.pcbFree, f);
      p := pool.AllocPcb();
      ghost var m' := LinksOf(procTable);
      RingKept(procTable, m, m', f, readyQue, r);
      RepresentsAway(procTable, m, m', f, asl.addrs, asl.tails, b);
    }

    // ---- pcb fields -----------------------------------------------------------

    method SetSemAdd(p: Pcb, a: Addr, ghost tree: Forest, ghost semAdd: seq<Addr>, ghost saved: seq<Cpu>)
      requires Static() && InTable(procTable, p) && FieldRep(tree, semAdd, saved)
      modifies p`semAdd
      ensures p.id < |semAdd| && FieldRep(tree, semAdd[p.id := a], saved)
    {
      hide Families, KinOf, SemAdds, Saved;
      p.semAdd := a;
      assert SemAdds(procTable) == semAdd[p.id := a];
    }

    method SetState(p: Pcb, c: Cpu, ghost tree: Forest, ghost semAdd: seq<Addr>, ghost saved: seq<Cpu>)
      requires Static() && InTable(procTable, p) && FieldRep(tree, semAdd, saved)
      modifies p`s
      ensures p.id < |saved| && FieldRep(tree, semAdd, saved[p.id := c])
    {
      hide Families, KinOf, SemAdds, Saved;
      p.s := c;
      assert Saved(procTable) == saved[p.id := c];
    }

    /** insertBlocked(a, p) while fewer semaphores are active than there are pcbs: it cannot fail. */
    method BlockOn(a: Addr, p: Pcb, ghost s: State) returns (full: bool)
      requires Static() && QueueRep(s.free, s.ready, s.blocked) && Disjoint(s.free, s.ready, s.blocked)
      requires FieldRep(s.tree, s.semAdd, s.saved) && 0 < a < MAXINT
      requires InTable(procTable, p) && Nowhere(s.free, s.ready, s.blocked, p.id) && |s.blocked| < |procTable|
      modifies asl, asl.nodes, Objs(procTable)`next, Objs(procTable)`prev, p`semAdd
      ensures !full && p.id < |s.semAdd|
      ensures QueueRep(s.free, s.ready, InsertBlocked(s, a, p.id).blocked)
      ensures FieldRep(s.tree, InsertBlocked(s, a, p.id).semAdd, s.saved)
    {
      hide Disjoint, Nowhere, QueueRep, Families, KinOf, SemAdds, Saved;
      full := JoinSem(a, p, s.free, s.ready, s.blocked);
      assert SemAdds(procTable) == s.semAdd[p.id := a];
    }

    /** allocPcb(), which does not disturb the tree: the pcb has no relatives. */
    method NewPcb(ghost s: State) returns (p: Pcb?)
      requires Static() && QueueRep(s.free, s.ready, s.blocked) && Disjoint(s.free, s.ready, s.blocked)
      requires FieldRep(s.tree, s.semAdd, s.saved) && Sound(s.tree)
      requires s.free != [] ==> Spare(s, s.free[0])
      modifies pool, Objs(procTable)`next, Objs(procTable)`prev
      modifies Objs(procTable)`child, Objs(procTable)`sib, Objs(procTable)`prevsib, Objs(procTable)`prnt
      modifies Objs(procTable)`semAdd
      ensures FieldRep(s.tree, s.semAdd, s.saved)
      ensures s.free == [] ==> p == null && QueueRep(s.free, s.ready, s.blocked)
      ensures s.free != [] ==>
        && s.free[0] < |procTable| && p == procTable[s.free[0]] && Clean(p)
        && QueueRep(s.free[1..], s.ready, s.blocked)
    {
      hide QueueRep, Disjoint, Families, Sound, KinOf, SemAdds, Saved;
      ghost var k := KinOf(procTable);
      p := Acquire(s.free, s.ready, s.blocked);
      if p != null {
        CleanFamilies(procTable, k, KinOf(procTable), s.tree, p.id);
        assert SemAdds(procTable) == s.semAdd;
      }
    }

    /** insertChild(prnt, p) for a clean pcb. */
    method Adopt(prnt: Pcb, p: Pcb, ghost tree: Forest, ghost semAdd: seq<Addr>, ghost saved: seq<Cpu>)
      requires Static() && InTable(procTable, prnt) && InTable(procTable, p) && prnt != p
      requires FieldRep(tree, semAdd, saved) && Sound(tree) && Clean(p)
      requires |tree.kids| == |tree.parent| == |procTable| && tree.kids[p.id] == [] && tree.parent[p.id] == None
      modifies Objs(procTable)`child, Objs(procTable)`sib, Objs(procTable)`prevsib, Objs(procTable)`prnt
      ensures FieldRep(Insert(tree, prnt.id, p.id), semAdd, saved)
    {
      hide Families, Sound, KinOf, SemAdds, Saved, ChildInserted;
      ghost var k, ks := KinOf(procTable), tree.kids[prnt.id];
      FirstChildLinks(procTable, k, tree, prnt.id);
      InsertChild(procTable, prnt, p, ks);
      InsertChildExact(procTable, k, KinOf(procTable), tree, prnt.id, p.id);
    }

    /** freePcb(p), for a process without relatives. */
    method Discard(p: Pcb, ghost f: seq<Pid>, ghost r: seq<Pid>, ghost b: map<Addr, seq<Pid>>,
                    ghost tree: Forest, ghost semAdd: seq<Addr>, ghost saved: seq<Cpu>)
      requires Static() && QueueRep(f, r, b) && Disjoint(f, r, b)
      requires InTable(procTable, p) && Nowhere(f, r, b, p.id)
      requires FieldRep(tree, semAdd, saved) && Sound(tree) && |tree.kids| == |tree.parent| == |procTable|
      requires tree.kids[p.id] == [] && tree.parent[p.id] == None
      modifies pool, Objs(procTable)`next, Objs(procTable)`prev
      modifies p`child, p`sib, p`prevsib, p`prnt, p`semAdd
      ensures QueueRep(f + [p.id], r, b)
      ensures p.id < |semAdd| && FieldRep(tree, semAdd[p.id := NULL], saved)
    {
      hide QueueRep, Disjoint, Nowhere, Families, Sound, KinOf, SemAdds, Saved;
      ghost var k := KinOf(procTable);
      Release(p, f, r, b);
      CleanFamilies(procTable, k, KinOf(procTable), tree, p.id);
      assert SemAdds(procTable) == semAdd[p.id := NULL];
    }

    /** outChild(p); NULL for a process without a parent. */
    method Orphan(p: Pcb, ghost tree: Forest, ghost semAdd: seq<Addr>, ghost saved: seq<Cpu>) returns (r: Pcb?)
      requires Static() && InTable(procTable, p) && FieldRep(tree, semAdd, saved) && Sound(tree)
      requires |tree.kids| == |tree.parent| == |procTable|
      modifies Objs(procTable)`child, Objs(procTable)`sib, Objs(procTable)`prevsib, Objs(procTable)`prnt
      ensures r == if tree.parent[p.id].Some? then p else null
      ensures r != null ==> FieldRep(Prune(tree, {p.id}), semAdd, saved)
    {
      hide Families, Sound, KinOf, SemAdds, Saved, ChildCut, NoDup, Below, KidRef, Prune;
      ghost var k := KinOf(procTable);
      ParentLink(procTable, k, tree, p.id);
      ghost var q, ks, i := p.id, [], 0;
      if tree.parent[p.id].Some? {
        ChildLinks(procTable, k, tree, p.id);
        q := tree.parent[p.id].value;
        ks, i := tree.kids[q], Pos(tree.kids[q], p.id);
      }
      r := OutChild(procTable, p, q, ks, i);
      if r != null {
        CutFamilies(procTable, k, KinOf(procTable), tree, p.id);
      }
    }

    // ---- blocking and waking --------------------------------------------------

    /** The running process joins the queue of a. */
    method Suspend(a: Addr)
      requires Rep() && st.current.Some? && 0 < a < MAXINT && |st.blocked| < |procTable|
      requires Disjoint(st.free, st.ready, st.blocked) && Nowhere(st.free, st.ready, st.blocked, st.current.value)
      modifies this`currentProcess, this`st, asl, asl.nodes
      modifies Objs(procTable)`next, Objs(procTable)`prev, Objs(procTable)`semAdd
      ensures old(st.current.value) < |old(st.semAdd)|
      ensures st == InsertBlocked(old(st), a, old(st.current.value)).(current := None) && Rep()
    {
      hide QueueRep, FieldRep, Disjoint, Nowhere;
      ghost var s0 := st;
      var full := BlockOn(a, currentProcess, s0);
      currentProcess := null;
      st := InsertBlocked(s0, a, s0.current.value).(current := None);
    }

    /** The running process saves its state and joins the queue of a. */
    method BlockCurrent(a: Addr, area: Cpu)
      requires Rep() && Shape(st) && st.current.Some? && Placed(st, st.current) && 0 < a < MAXINT
      modifies this`currentProcess, this`st, asl, asl.nodes
      modifies Objs(procTable)`next, Objs(procTable)`prev, Objs(procTable)`semAdd, Objs(procTable)`s
      ensures old(st.current.value) < |old(st.semAdd)| == |old(st.saved)|
      ensures st == Block(old(st), a, area) && Rep()
    {
      hide QueueRep, FieldRep, Shape, Placed, Disjoint, Nowhere;
      ghost var s0 := st;
      CurrentNowhere(s0);
      PlacedDisjoint(s0, s0.current);
      SetState(currentProcess, area, s0.tree, s0.semAdd, s0.saved);
      st := s0.(saved := s0.saved[s0.current.value := area]);
      Suspend(a);
    }

    /** A process that has left every queue becomes ready. */
    method MakeReady(p: Pcb, ghost s: State, ghost b: map<Addr, seq<Pid>>)
      requires Static() && QueueRep(s.free, s.ready, b) && Disjoint(s.free, s.ready, b)
      requires FieldRep(s.tree, s.semAdd, s.saved) && InTable(procTable, p) && Nowhere(s.free, s.ready, b, p.id)
      modifies this`readyQue, Objs(procTable)`next, Objs(procTable)`prev, p`semAdd
      ensures p.id < |s.semAdd| && QueueRep(s.free, s.ready + [p.id], b)
      ensures FieldRep(s.tree, s.semAdd[p.id := NULL], s.saved)
    {
      hide QueueRep, FieldRep, Disjoint, Nowhere;
      SetSemAdd(p, NULL, s.tree, s.semAdd, s.saved);
      PutReady(p, s.free, s.ready, b);
    }

    /** removeBlocked, and if that finds a process, it becomes ready. */
    method WakeHead(a: Addr, ghost run: Option<Pid>) returns (p: Pcb?)
      requires Rep() && Shape(st) && Placed(st, run) && 0 < a < MAXINT
      modifies this`readyQue, this`st, asl, asl.nodes
      modifies Objs(procTable)`next, Objs(procTable)`prev, Objs(procTable)`semAdd
      ensures a !in old(st.blocked) ==> p == null && st == old(st)
      ensures a in old(st.blocked) ==>
        && old(st.blocked)[a] != [] && old(st.blocked)[a][0] < |old(st.semAdd)| == |procTable|
        && p == procTable[old(st.blocked)[a][0]] && InTable(procTable, p)
        && st == Wake(old(st), a) && Shape(st) && Placed(st, run)
      ensures Rep()
    {
      hide QueueRep, FieldRep, Shape, Placed, Disjoint, Nowhere;
      ghost var s0 := st;
      PlacedDisjoint(s0, run);
      FieldsAt(s0);
      QueueLabels(s0, run, a);
      p := LeaveSem(a, s0.free, s0.ready, s0.blocked);
      if p != null {
        HeadNowhere(s0, run, a);
        MakeReady(p, s0, SetQueue(s0.blocked, a, s0.blocked[a][1..]));
        WakePlaced(s0, run, a);
        WakeShape(s0, a);
        st := Wake(s0, a);
      }
    }

    // ---- scheduler.c --------------------------------------------------------

    method Scheduler() returns (o: Outcome)
      requires Rep() && Shape(st) && Loose(st, None)
      modifies this, Objs(procTable)`next, Objs(procTable)`prev
      ensures forall p :: p in old(st.ready) ==> p < |old(st.saved)|
      ensures (st, o) == Nucleus.Scheduler(old(st))
      ensures Rep()
    {
      hide QueueRep, FieldRep, Shape, Loose, Disjoint;
      ghost var s0 := st;
      FieldsAt(s0);
      LooseDisjoint(s0, None);
      var process := TakeReady(s0.free, s0.ready, s0.blocked);
      if process == null {
        if processCount == 0 {
          o := Halt;
        } else if softBlockCount == 0 {
          o := Panic;
        } else {
          waitFlag := true;
          o := Wait;
        }
      } else {
        waitFlag := false;
        currentProcess := process;
        o := Load(process.s);
      }
      st := Nucleus.Scheduler(s0).0;
      assert QueueRep(st.free, st.ready, st.blocked);
      assert FieldRep(st.tree, st.semAdd, st.saved);
    }

    // ---- exceptions.c -------------------------------------------------------

    /** SYS 1. */
    method CreateProcess(area: Cpu, init: Cpu) returns (o: Outcome)
      requires Rep() && Inv(st) && !st.waitFlag
      modifies Footprint()
      ensures (st, o) == Nucleus.CreateProcess(old(st), area, init)
      ensures Rep()
    {
      hide QueueRep, FieldRep, Shape, Placed, Loose, Disjoint, Nowhere, Counted, Valued, Related, Sound, Clean;
      ghost var s0 := st;
      PlacedDisjoint(s0, s0.current);
      HeadSpare(s0);
      var p := NewPcb(s0);
      if p == null {
        return Failed(area.(v0 := -1));
      }
      SetState(p, init, s0.tree, s0.semAdd, s0.saved);
      processCount := processCount + 1;
      Adopt(currentProcess, p, s0.tree, s0.semAdd, s0.saved[p.id := init]);
      PutReady(p, s0.free[1..], s0.ready, s0.blocked);
      st := Nucleus.CreateProcess(s0, area, init).0;
      assert QueueRep(st.free, st.ready, st.blocked);
      assert FieldRep(st.tree, st.semAdd, st.saved);
      return Load(area.(v0 := 0));
    }

    /** SYS 2. */
    method TerminateProcess() returns (o: Outcome)
      requires Rep() && Inv(st) && !st.waitFlag
      modifies Footprint()
      ensures (st, o) == Nucleus.TerminateProcess(old(st))
      ensures o != Fault ==> Rep()
    {
      hide QueueRep, FieldRep, Shape, Loose, Placed, Counted, Valued, Related, Sound;
      hide Torn, KillRoot, KillNull, Terminate;
      ghost var s0 := st;
      CurrentFacts(s0);
      var ok := TerminateRecursively(currentProcess);
      if !ok {
        st := s0;
        return Fault;
      }
      o := Scheduler();
    }

    /** p and its descendants are terminated. p is the running process, or has been
        cut off. The result tells whether NULL was never handed to freePcb. */
    method TerminateRecursively(p: Pcb) returns (ok: bool)
      requires Rep() && InTable(procTable, p) && Torn(st, st.current) && KillRoot(st, p.id)
      requires p.id < |st.tree.parent| == |st.tree.born| && (st.current != Some(p.id) ==> st.tree.parent[p.id] == None)
      modifies Footprint()
      ensures p.id < |old(st).semAdd| && Shape(old(st)) && Sound(old(st).tree) && p.id < old(st).cfg.n
      ensures p.id < |old(st).tree.parent|
      ensures ok <==> !KillNull(old(st), p.id) && (old(st).current == Some(p.id) ==> old(st).tree.parent[p.id].Some?)
      ensures ok ==> st == Terminate(old(st), p.id) && Rep()
      decreases st.tree.clock - st.tree.born[p.id], 1
    {
      hide QueueRep, FieldRep, Shape, Related, Sound, Stage, Terminate, KillRoot, Torn, StageNull, KillNull;
      ghost var s0, i := st, 0;
      RootFacts(s0, p.id);
      StageFirst(s0, p.id);
      StageOpen(s0, p.id, 0);
      FirstChild(p, st);
      while !EmptyChild(p)
        invariant 0 <= i <= |s0.tree.kids[p.id]| && Rep() && st == Stage(s0, p.id, i) && !StageNull(s0, p.id, i)
        invariant EmptyChild(p) <==> i == |s0.tree.kids[p.id]|
        decreases |s0.tree.kids[p.id]| - i
      {
        ok := KillNextChild(p, s0, i);
        if !ok {
          StageNullAll(s0, p.id, i + 1);
          return;
        }
        i := i + 1;
        StageOpen(s0, p.id, i);
        FirstChild(p, st);
      }
      ok := KillLast(p, s0);
    }

    /** One turn of the loop: the first child left is cut off and terminated. */
    method KillNextChild(p: Pcb, ghost s0: State, ghost i: nat) returns (ok: bool)
      requires Rep() && InTable(procTable, p) && Torn(s0, s0.current) && KillRoot(s0, p.id)
      requires Shape(s0) && Sound(s0.tree) && p.id < s0.cfg.n && i < |s0.tree.kids[p.id]|
      requires p.id < |s0.tree.born| && st == Stage(s0, p.id, i) && !StageNull(s0, p.id, i)
      modifies Footprint()
      ensures ok <==> !StageNull(s0, p.id, i + 1)
      ensures ok ==> st == Stage(s0, p.id, i + 1) && Rep()
      decreases s0.tree.clock - s0.tree.born[p.id], 0
    {
      hide QueueRep, FieldRep, Shape, Related, Sound, Stage, Terminate, KillRoot, Torn, StageNull, KillNull;
      ghost var t := st;
      RootFacts(s0, p.id);
      StageOpen(s0, p.id, i);
      StageStep(s0, p.id, i);
      NextKid(s0, p.id, i);
      var c := TakeChild(p, t.tree, t.semAdd, t.saved);
      st := CutOff(t, c.id);
      ok := TerminateRecursively(c);
    }

    /** removeChild(p), for a process that has children. */
    method TakeChild(p: Pcb, ghost tree: Forest, ghost semAdd: seq<Addr>, ghost saved: seq<Cpu>) returns (r: Pcb?)
      requires Static() && InTable(procTable, p) && FieldRep(tree, semAdd, saved) && Sound(tree)
      requires |tree.kids| == |tree.parent| == |procTable| && tree.kids[p.id] != []
      modifies Objs(procTable)`child, Objs(procTable)`sib, Objs(procTable)`prevsib, Objs(procTable)`prnt
      ensures Kid(tree, p.id, 0) < |procTable| && r == procTable[Kid(tree, p.id, 0)] && InTable(procTable, r)
      ensures FieldRep(Prune(tree, {Kid(tree, p.id, 0)}), semAdd, saved)
    {
      hide Families, Sound, KinOf, SemAdds, Saved;
      r := RemoveChild(procTable, p, tree);
    }

    /** p has a first child exactly when the forest says so. */
    lemma FirstChild(p: Pcb, s: State)
      requires Static() && FieldRep(s.tree, s.semAdd, s.saved) && Sound(s.tree) && InTable(procTable, p)
      ensures |s.tree.kids| == |procTable| && (EmptyChild(p) <==> s.tree.kids[p.id] == [])
    {
      FirstChildLinks(procTable, KinOf(procTable), s.tree, p.id);
    }

    /** After the loop p itself is freed. */
    method KillLast(p: Pcb, ghost s0: State) returns (ok: bool)
      requires Rep() && InTable(procTable, p) && Torn(s0, s0.current) && KillRoot(s0, p.id)
      requires Shape(s0) && Sound(s0.tree) && p.id < s0.cfg.n
      requires p.id < |s0.tree.parent| && (s0.current != Some(p.id) ==> s0.tree.parent[p.id] == None)
      requires !StageNull(s0, p.id, |s0.tree.kids[p.id]|) && st == Stage(s0, p.id, |s0.tree.kids[p.id]|)
      modifies Footprint()
      ensures ok <==> !KillNull(s0, p.id) && (s0.current == Some(p.id) ==> s0.tree.parent[p.id].Some?)
      ensures ok ==> st == Terminate(s0, p.id) && Rep()
    {
      hide QueueRep, FieldRep, Shape, Loose, Related, Sound, Stage, Terminate, KillRoot, Torn;
      hide StageNull, KillNull, KillOne, Found;
      RootFacts(s0, p.id);
      StageLast(s0, p.id);
      StageLastKill(s0, p.id);
      StageParts(s0, p.id);
      FieldsAt(st);
      if p.semAdd != NULL {
        ok := KillWaiting(p);
      } else if p == currentProcess {
        ok := KillRunning(p);
      } else {
        KillReady(p);
        ok := true;
      }
    }

    /** Whether a is the address of a device or clock semaphore. */
    method OnDevice(a: Addr) returns (devSem: bool)
      ensures devSem <==> IsDev(cfg, a)
    {
      devSem := false;
      var i := 0;
      while i < 49
        invariant 0 <= i <= 49
        invariant devSem <==> exists k :: 0 <= k < i && DevAddr(cfg, k) == a
      {
        if DevAddr(cfg, i) == a {
          devSem := true;
        }
        i := i + 1;
      }
    }

    /** One waiter fewer on a: the semaphore rises, unless it is a device's. */
    method CountOut(a: Addr)
      modifies this`mem, this`softBlockCount
      ensures mem == if IsDev(cfg, a) then old(mem) else old(mem)[a := Val(old(mem), a) + 1]
      ensures softBlockCount == if IsDev(cfg, a) then old(softBlockCount) - 1 else old(softBlockCount)
    {
      var devSem := OnDevice(a);
      if !devSem {
        mem := mem[a := Val(mem, a) + 1];
      } else {
        softBlockCount := softBlockCount - 1;
      }
    }

    /** The victim waits on a semaphore. */
    method KillWaiting(p: Pcb) returns (ok: bool)
      requires Rep() && Shape(st) && Loose(st, st.current) && Sound(st.tree) && InTable(procTable, p)
      requires p.semAdd != NULL && p.id !in st.free && p.id < |st.semAdd|
      requires st.tree.kids[p.id] == [] && st.tree.parent[p.id] == None
      modifies Footprint()
      ensures p.id < |old(st).semAdd| && (ok <==> Found(old(st), p.id))
      ensures ok ==> st == KillOne(old(st), p.id) && Rep()
    {
      hide QueueRep, FieldRep, Shape, Loose, Disjoint, Nowhere, Sound, OutBlocked, KillOne, IsDev, Found;
      var a := p.semAdd;
      ghost var s0 := st;
      FieldsAt(s0);
      ShapeSizes(s0);
      WaitingLeft(s0, p.id);
      LooseDisjoint(s0, s0.current);
      CountOut(a);
      var q := OutSem(p, s0.free, s0.ready, s0.blocked);
      if q == null {
        return false;
      }
      WaitingKilled(s0, p.id);
      FreeWaiting(q, KillOne(s0, p.id));
      ok := true;
    }

    /** The victim has left its queue and been counted out there; it is freed. */
    method FreeWaiting(p: Pcb, ghost t: State)
      requires Static() && InTable(procTable, p) && Sound(st.tree) && p.id < |st.semAdd|
      requires QueueRep(st.free, st.ready, t.blocked) && Disjoint(st.free, st.ready, t.blocked)
      requires Nowhere(st.free, st.ready, t.blocked, p.id) && FieldRep(st.tree, st.semAdd, st.saved)
      requires |st.tree.kids| == |st.tree.parent| == |procTable|
      requires st.tree.kids[p.id] == [] && st.tree.parent[p.id] == None
      requires t.free == st.free + [p.id] && t.ready == st.ready && t.semAdd == st.semAdd[p.id := NULL]
      requires t.tree == st.tree && t.saved == st.saved && t.current == st.current && t.waitFlag == st.waitFlag
      requires t.cfg == cfg && mem == t.sem && currentProcess == Ref(t.current) && waitFlag == t.waitFlag
      requires t.current.Some? ==> t.current.value < cfg.n
      requires processCount == t.processCount + 1 && softBlockCount == t.softBlockCount
      modifies this`processCount, this`st, pool, Objs(procTable)`next, Objs(procTable)`prev
      modifies p`child, p`sib, p`prevsib, p`prnt, p`semAdd
      ensures st == t && Rep()
    {
      hide QueueRep, FieldRep, Disjoint, Nowhere, Sound;
      Discard(p, st.free, st.ready, t.blocked, st.tree, st.semAdd, st.saved);
      processCount := processCount - 1;
      st := t;
    }

    /** The victim is the running process. */
    method KillRunning(p: Pcb) returns (ok: bool)
      requires Rep() && Shape(st) && Loose(st, st.current) && Sound(st.tree) && InTable(procTable, p)
      requires p.semAdd == NULL && st.current == Some(p.id) && p.id !in st.free && p.id < |st.semAdd|
      requires p.id < |st.tree.kids| == |st.tree.parent| && st.tree.kids[p.id] == []
      modifies Footprint()
      ensures p.id < |old(st).semAdd| && p.id < |old(st).tree.parent| == |old(st).tree.kids|
      ensures ok <==> old(st).tree.parent[p.id].Some?
      ensures ok ==> st == KillOne(CutOff(old(st), p.id), p.id) && Rep()
    {
      hide QueueRep, FieldRep, Shape, Loose, Disjoint, Nowhere, Sound;
      ghost var s0 := st;
      FieldsAt(s0);
      ShapeSizes(s0);
      UnblockedLeft(s0, p.id);
      LooseDisjoint(s0, s0.current);
      var q := Orphan(p, s0.tree, s0.semAdd, s0.saved);
      if q == null {
        return false;
      }
      CutLinks(s0, p.id);
      Discard(q, s0.free, s0.ready, s0.blocked, Prune(s0.tree, {p.id}), s0.semAdd, s0.saved);
      processCount := processCount - 1;
      st := KillOne(CutOff(s0, p.id), p.id);
      assert QueueRep(st.free, st.ready, st.blocked);
      assert FieldRep(st.tree, st.semAdd, st.saved);
      assert GlobalRep();
      ok := true;
    }

    /** The victim is on the ready queue. */
    method KillReady(p: Pcb)
      requires Rep() && Shape(st) && Loose(st, st.current) && Sound(st.tree) && InTable(procTable, p)
      requires p.semAdd == NULL && st.current != Some(p.id) && p.id !in st.free && p.id < |st.semAdd|
      requires st.tree.kids[p.id] == [] && st.tree.parent[p.id] == None
      modifies Footprint()
      ensures p.id < |old(st).semAdd| && st == KillOne(old(st), p.id) && Rep()
    {
      hide QueueRep, FieldRep, Shape, Loose, Disjoint, Nowhere, Sound;
      ghost var s0 := st;
      FieldsAt(s0);
      ShapeSizes(s0);
      UnblockedLeft(s0, p.id);
      LooseDisjoint(s0, s0.current);
      var q := DropReady(p, s0.free, s0.ready, s0.blocked);
      Discard(q, s0.free, Without(s0.ready, {p.id}), s0.blocked, s0.tree, s0.semAdd, s0.saved);
      processCount := processCount - 1;
      st := KillOne(s0, p.id);
      assert QueueRep(st.free, st.ready, st.blocked);
      assert FieldRep(st.tree, st.semAdd, st.saved);
      assert GlobalRep();
    }

    /** SYS 3. */
    method Verhogen(a: Addr, area: Cpu) returns (o: Outcome)
      requires Rep() && Inv(st) && 0 < a < MAXINT
      modifies Footprint()
      ensures (st, o) == Nucleus.Verhogen(old(st), a, area)
      ensures Rep()
    {
      hide QueueRep, FieldRep, Shape, Placed, Loose, Counted, Valued, Related;
      ghost var s0 := st;
      mem := mem[a := Val(mem, a) + 1];
      st := AddSem(s0, a, 1);
      SamePlaces(s0, st, Runner(s0));
      if Val(mem, a) <= 0 {
        var temp := WakeHead(a, Runner(s0));
      }
      return Load(area);
    }

    /** SYS 4. */
    method Passeren(a: Addr, area: Cpu) returns (o: Outcome)
      requires Rep() && Inv(st) && !st.waitFlag && 0 < a < MAXINT
      modifies Footprint()
      ensures (st, o) == Nucleus.Passeren(old(st), a, area)
      ensures Rep()
    {
      hide QueueRep, FieldRep, Shape, Placed, Loose, Counted, Valued, Related;
      ghost var s0 := st;
      mem := mem[a := Val(mem, a) - 1];
      st := AddSem(s0, a, -1);
      SamePlaces(s0, st, s0.current);
      if Val(mem, a) < 0 {
        BlockPlaced(st, a, area);
        BlockCurrent(a, area);
        PlacedDisjoint(st, None);
        o := Scheduler();
      } else {
        o := Load(area);
      }
    }

    /** SYS 7. */
    method WaitForClock(area: Cpu) returns (o: Outcome)
      requires Rep() && Inv(st) && !st.waitFlag
      modifies Footprint()
      ensures (st, o) == Nucleus.WaitForClock(old(st), area)
      ensures Rep()
    {
      hide QueueRep, FieldRep, Shape, Placed, Loose, Disjoint, Nowhere, Counted, Valued, Related, Block;
      ghost var s0 := st;
      var a := DevAddr(cfg, 5 * DEVSPERLINE + DEVSPERLINE);
      DeviceAddr(s0, CLOCKSEM);
      mem := mem[a := Val(mem, a) - 1];
      st := AddSem(s0, a, -1);
      SamePlaces(s0, st, s0.current);
      assert QueueRep(st.free, st.ready, st.blocked) && FieldRep(st.tree, st.semAdd, st.saved);
      if Val(mem, a) < 0 {
        BlockPlaced(st, a, area);
        BlockCurrent(a, area);
        SoftPlaced(st);
        softBlockCount := softBlockCount + 1;
        st := st.(softBlockCount := softBlockCount);
        PlacedDisjoint(st, None);
        o := Scheduler();
      } else {
        o := Load(area);
      }
    }

    /** The blocking half of SYS 8, which s0 entered: the state has been saved and the semaphore lowered. */
    method SuspendSoftly(a: Addr, ghost s0: State, ghost area: Cpu)
      requires Rep() && Shape(s0) && s0.current.Some? && Placed(s0, s0.current) && 0 < a < MAXINT
      requires s0.current.value < |s0.saved| && st == AddSem(s0.(saved := s0.saved[s0.current.value := area]), a, -1)
      modifies this`currentProcess, this`st, this`softBlockCount, asl, asl.nodes
      modifies Objs(procTable)`next, Objs(procTable)`prev, Objs(procTable)`semAdd
      ensures s0.current.value < |s0.semAdd| == |s0.saved|
      ensures st == Block(AddSem(s0, a, -1), a, area).(softBlockCount := s0.softBlockCount + 1)
      ensures Rep() && Shape(st) && Placed(st, None)
    {
      hide QueueRep, FieldRep, Shape, Placed, Disjoint, Nowhere, Block, InsertBlocked;
      CurrentNowhere(s0);
      PlacedDisjoint(s0, s0.current);
      SoftBlockPlaced(s0, a, area);
      softBlockCount := softBlockCount + 1;
      st := st.(softBlockCount := softBlockCount);
      Suspend(a);
    }

    /** SYS 8. */
    method WaitForIODevice(line: int, dev: int, termRead: int, area: Cpu) returns (o: Outcome)
      requires Rep() && Inv(st) && !st.waitFlag && RealDevice(line, dev)
      modifies Footprint()
      ensures (st, o) == Nucleus.WaitForIODevice(old(st), line, dev, termRead, area)
      ensures Rep()
    {
      hide QueueRep, FieldRep, Shape, Placed, Loose, Disjoint, Nowhere, Counted, Valued, Related, Block, InsertBlocked;
      ghost var s0 := st;
      CurrentNowhere(s0);
      PlacedDisjoint(s0, s0.current);
      SetState(currentProcess, area, s0.tree, s0.semAdd, s0.saved);
      st := s0.(saved := s0.saved[s0.current.value := area]);
      var offset := 0;
      if line == 7 {
        if termRead == 1 {
          offset := 8;
        }
      }
      var semNumber := GetSemArrayNum(line, dev, offset);
      var a := DevAddr(cfg, semNumber);
      DeviceAddr(s0, semNumber);
      mem := mem[a := Val(mem, a) - 1];
      st := AddSem(st, a, -1);
      assert QueueRep(st.free, st.ready, st.blocked) && FieldRep(st.tree, st.semAdd, st.saved);
      if Val(mem, a) < 0 {
        SuspendSoftly(a, s0, area);
        PlacedDisjoint(st, None);
        o := Scheduler();
      } else {
        o := Return(area);
      }
    }

    // ---- interrupts.c -------------------------------------------------------

    /** The head waiter of a device becomes ready with the status in its v0. */
    method WakeDevice(a: Addr, status: int, ghost run: Option<Pid>) returns (p: Pcb?)
      requires Rep() && Shape(st) && Placed(st, run) && 0 < a < MAXINT
      modifies this`readyQue, this`st, this`softBlockCount, asl, asl.nodes
      modifies Objs(procTable)`next, Objs(procTable)`prev, Objs(procTable)`semAdd, Objs(procTable)`s
      ensures p == null <==> a !in old(st.blocked)
      ensures p == null ==> st == old(st)
      ensures p != null ==>
        && old(st.blocked)[a] != [] && old(st.blocked)[a][0] < |old(st.semAdd)| == |old(st.saved)|
        && st == DevWake(old(st), a, status) && Shape(st) && Placed(st, run)
      ensures Rep()
    {
      hide QueueRep, FieldRep, Shape, Placed;
      FieldsAt(st);
      p := WakeHead(a, run);
      if p != null {
        ghost var s := st;
        FieldsAt(s);
        SetState(p, p.s.(v0 := status), s.tree, s.semAdd, s.saved);
        softBlockCount := softBlockCount - 1;
        st := s.(saved := s.saved[p.id := s.saved[p.id].(v0 := status)], softBlockCount := softBlockCount);
        assert QueueRep(st.free, st.ready, st.blocked);
        assert FieldRep(st.tree, st.semAdd, st.saved);
        SamePlaces(s, st, run);
      }
    }

    /** A device interrupt; `status` is d_status or t_recv_status, `transm` t_transm_status. */
    method DeviceInterrupt(line: int, dev: int, status: nat, transm: nat, area: Cpu) returns (o: Outcome)
      requires Rep() && Inv(st) && RealDevice(line, dev)
      modifies Footprint()
      ensures (st, o) == Nucleus.DeviceInterrupt(old(st), line, dev, status, transm, area)
      ensures Rep()
    {
      hide QueueRep, FieldRep, Shape, Placed, Loose, Disjoint, Nowhere, Counted, Valued, Related, DevWake;
      var termOffset, result := 0, status;
      if line == 7 {
        result := AckTerminal(status, transm);
        if result % 16 == READY {
          termOffset := 8;
        }
      }
      var semNumber := GetSemArrayNum(line, dev, termOffset);
      var a := DevAddr(cfg, semNumber);
      ghost var s0 := st;
      DeviceRange(s0, IntDevice(line, dev, status, transm, area));
      mem := mem[a := Val(mem, a) + 1];
      st := AddSem(s0, a, 1);
      assert QueueRep(st.free, st.ready, st.blocked) && FieldRep(st.tree, st.semAdd, st.saved);
      SamePlaces(s0, st, Runner(s0));
      if Val(mem, a) > 0 {
        return Return(area);
      }
      var p := WakeDevice(a, result, Runner(s0));
      if p == null {
        return Fault;
      }
      if waitFlag {
        PlacedDisjoint(st, None);
        o := Scheduler();
      } else {
        o := Load(area);
      }
    }

    /** The transmitter's status unless it is merely ready; then the receiver's. */
    method AckTerminal(recv: nat, transm: nat) returns (status: nat)
      ensures status == AckStatus(recv, transm)
    {
      status := transm;
      if status % 16 == READY {
        status := recv;
      }
    }

    /** The end of a quantum. */
    method QuantumEnd(area: Cpu) returns (o: Outcome)
      requires Rep() && Inv(st) && !st.waitFlag
      modifies Footprint()
      ensures (st, o) == Nucleus.QuantumEnd(old(st), area)
      ensures Rep()
    {
      hide QueueRep, FieldRep, Shape, Placed, Loose, Disjoint, Nowhere, Counted, Valued, Related;
      ghost var s0 := st;
      CurrentNowhere(s0);
      PlacedDisjoint(s0, s0.current);
      SetState(currentProcess, area, s0.tree, s0.semAdd, s0.saved);
      PutReady(currentProcess, s0.free, s0.ready, s0.blocked);
      currentProcess := null;
      QuantumKeeps(s0, area);
      st := s0.(saved := s0.saved[s0.current.value := area], ready := s0.ready + [s0.current.value], current := None);
      PlacedDisjoint(st, None);
      o := Scheduler();
    }

    /** The clock interrupt: every waiter of the clock semaphore becomes ready. */
    method ClockTick(area: Cpu) returns (o: Outcome)
      requires Rep() && Inv(st)
      modifies Footprint()
      ensures (st, o) == Nucleus.ClockTick(old(st), area)
      ensures Rep()
    {
      hide QueueRep, FieldRep, Shape, Placed, Loose, Counted, Valued, Related, WakeAll;
      var a := DevAddr(cfg, CLOCKSEM);
      ghost var s0 := st;
      DeviceAddr(s0, CLOCKSEM);
      TickPlaced(s0);
      var h := HeadSem(a, s0.free, s0.ready, s0.blocked);
      if h != null {
        if Val(mem, a) <= 0 {
          WakeClock(a, h);
        }
      }
      if currentProcess != null {
        o := Load(area);
      } else {
        PlacedDisjoint(st, None);
        o := Scheduler();
      }
    }

    /** One turn of the loop. */
    method WakeNext(a: Addr, ghost run: Option<Pid>)
      requires Rep() && Shape(st) && Placed(st, run) && 0 < a < MAXINT && a in st.blocked
      modifies this`readyQue, this`st, this`softBlockCount, this`mem, asl, asl.nodes
      modifies Objs(procTable)`next, Objs(procTable)`prev, Objs(procTable)`semAdd
      ensures old(st).blocked[a] != [] && old(st).blocked[a][0] < |old(st).semAdd|
      ensures st == WakeOne(old(st), a) && Shape(st) && Placed(st, run) && Rep()
    {
      hide QueueRep, FieldRep, Shape, Placed;
      WakeOnePlaced(st, run, a);
      var temp := WakeHead(a, run);
      mem := mem[a := Val(mem, a) + 1];
      softBlockCount := softBlockCount - 1;
      st := AddSem(st, a, 1).(softBlockCount := softBlockCount);
      assert QueueRep(st.free, st.ready, st.blocked);
      assert FieldRep(st.tree, st.semAdd, st.saved);
    }

    /** The mass V: turns of the loop until nobody waits for the clock. */
    method WakeClock(a: Addr, first: Pcb)
      requires Rep() && Core(st, Runner(st)) && a == DevAddr(cfg, CLOCKSEM) && a in st.blocked
      modifies this`readyQue, this`st, this`softBlockCount, this`mem, asl, asl.nodes
      modifies Objs(procTable)`next, Objs(procTable)`prev, Objs(procTable)`semAdd
      ensures st == WakeAll(old(st), a) && Rep()
    {
      hide QueueRep, FieldRep, Shape, Placed, Counted, Valued, Related, WakeAll, WakeSome, WakeOne;
      ghost var s0, run, k := st, Runner(st), 0;
      DeviceAddr(s0, CLOCKSEM);
      WakeSomeEnds(s0, run, a);
      var h: Pcb? := first;
      while h != null
        invariant 0 <= k <= |s0.blocked[a]|
        invariant Rep() && st == WakeSome(s0, a, k) && Shape(st) && Placed(st, run)
        invariant h != null <==> k < |s0.blocked[a]|
        decreases |s0.blocked[a]| - k
      {
        WakeSomeStep(s0, run, a, k);
        WakeNext(a, run);
        k := k + 1;
        h := HeadSem(a, st.free, st.ready, st.blocked);
      }
    }

    // ---- initial.c ----------------------------------------------------------

    /** main, from a freshly built kernel; init is the first process's state. */
    method Boot(init: Cpu) returns (o: Outcome)
      requires Static() && asl.Fresh() && !waitFlag
      requires |procTable| == cfg.n >= 1 && Image(cfg, mem, Saved(procTable)[0 := init])
      modifies Footprint(), procTable
      ensures |old(Saved(procTable))| == cfg.n >= 1
      ensures (st, o) == Nucleus.Scheduler(FirstState(cfg, old(mem), old(Saved(procTable))[0 := init]))
      ensures Rep() && Booted(st) && Inv(st)
    {
      hide QueueRep, FieldRep, Shape, Placed, Counted, Valued, Related, Saved, FirstState, ZeroDevs;
      ghost var cpus, mem0 := Saved(procTable), mem;
      processCount, softBlockCount := 0, 0;
      currentProcess := null;
      InitTables();
      ZeroDeviceSems();
      FirstProcess(init, mem0, cpus);
      BootKeeps(cfg, mem0, cpus[0 := init]);
      PlacedDisjoint(st, None);
      o := Scheduler();
    }

    /** The first process is created and enqueued. */
    method FirstProcess(init: Cpu, ghost mem0: map<Addr, int>, ghost cpus: seq<Cpu>)
      requires Static() && cfg.n >= 1 && |cpus| == cfg.n && !waitFlag
      requires processCount == 0 && softBlockCount == 0 && currentProcess == null
      requires mem == ZeroDevs(cfg, mem0, DEVICESEMNUM)
      requires QueueRep(Indices(cfg.n), [], map[])
      requires FieldRep(NoFamilies(cfg.n), seq(cfg.n, _ => NULL), cpus)
      modifies this`processCount, this`readyQue, this`st, pool, Objs(procTable)
      ensures st == FirstState(cfg, mem0, cpus[0 := init]) && Rep()
    {
      hide QueueRep, FieldRep, Disjoint, Nowhere, Sound, Spare, Indices, ZeroDevs;
      ghost var s := Blank(cfg, mem0, cpus);
      BlankFacts(s, cfg, mem0, cpus);
      var p := NewPcb(s);
      SetState(p, init, s.tree, s.semAdd, s.saved);
      processCount := processCount + 1;
      PutReady(p, s.free[1..], [], map[]);
      assert [] + [p.id] == [0];
      st := FirstState(cfg, mem0, cpus[0 := init]);
      assert QueueRep(st.free, st.ready, st.blocked);
      assert FieldRep(st.tree, st.semAdd, st.saved);
    }

    /** initPcbs, initASL and an empty ready queue. */
    method InitTables()
      requires Static() && asl.Fresh() && cfg.n >= 1
      modifies this`readyQue, pool, asl, asl.nodes, procTable
      ensures QueueRep(Indices(cfg.n), [], map[])
      ensures FieldRep(NoFamilies(cfg.n), seq(cfg.n, _ => NULL), old(Saved(procTable)))
    {
      hide Ring, LinksOf, FieldRep, KinOf, Represents, Saved;
      ghost var cpus := Saved(procTable);
      readyQue := null;
      pool.InitPcbs();
      asl.InitASL();
      EmptyRing(procTable, LinksOf(procTable));
      CleanTable(cpus);
    }

    /** A table of clean pcbs has no families and no p_semAdd. */
    lemma CleanTable(cpus: seq<Cpu>)
      requires |procTable| == cfg.n == |cpus|
      requires forall i :: 0 <= i < |procTable| ==> Clean(procTable[i]) && procTable[i].s == cpus[i]
      ensures FieldRep(NoFamilies(cfg.n), seq(cfg.n, _ => NULL), cpus)
    {
      assert SemAdds(procTable) == seq(cfg.n, _ => NULL);
      assert Saved(procTable) == cpus;
    }

    /** Every device semaphore is set to 0. */
    method ZeroDeviceSems()
      modifies this`mem
      ensures mem == ZeroDevs(cfg, old(mem), DEVICESEMNUM)
    {
      var i := 0;
      while i < 5 * DEVSPERLINE + DEVSPERLINE + 1
        invariant 0 <= i <= DEVICESEMNUM && mem == ZeroDevs(cfg, old(mem), i)
      {
        mem := mem[DevAddr(cfg, i) := 0];
        i := i + 1;
      }
    }

    // ---- the whole kernel -----------------------------------------------------

    /** Every entry into the kernel refines its step of the machine. */
    method Handle(e: Event) returns (o: Outcome)
      requires Rep() && Inv(st) && Enabled(st, e)
      modifies Footprint()
      ensures (st, o) == Step(old(st), e)
      ensures o != Fault ==> Rep()
      ensures GoesOn(old(st), e) ==> Inv(st) && Next(old(st), e, st)
    {
      hide *;
      EntryFacts(st, e);
      match e {
        case SysCreate(area, init) => o := CreateProcess(area, init);
        case SysTerminate => o := TerminateProcess();
        case SysV(a, area) => o := Verhogen(a, area);
        case SysP(a, area) => o := Passeren(a, area);
        case SysClock(area) => o := WaitForClock(area);
        case SysIO(line, dev, termRead, area) => o := WaitForIODevice(line, dev, termRead, area);
        case IntDevice(line, dev, status, transm, area) => o := DeviceInterrupt(line, dev, status, transm, area);
        case IntQuantum(area) => o := QuantumEnd(area);
        case IntClock(area) => o := ClockTick(area);
      }
    }
  }
}
