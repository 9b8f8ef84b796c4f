/** Every building block of the kernel steps keeps the invariant. */
module Keeps {
  import opened Seqs
  import opened Forest
  import opened Nucleus

  // ---- counting ----------------------------------------------------------

  lemma {:induction false} HeadsOf(blocked: map<Addr, seq<Pid>>, keys: set<Addr>) returns (q: seq<Pid>)
    requires forall a :: a in keys ==> a in blocked && blocked[a] != []
    requires forall a, b :: a in keys && b in keys && blocked[a][0] == blocked[b][0] ==> a == b
    ensures NoDup(q) && |q| == |keys|
    ensures forall x :: x in q ==> exists a :: a in keys && blocked[a][0] == x
    decreases |keys|
  {
    if keys == {} {
      q := [];
    } else {
      var a :| a in keys;
      q := HeadsOf(blocked, keys - {a});
      NoDupAppend(q, blocked[a][0]);
      q := q + [blocked[a][0]];
    }
  }

  /** While some process is not blocked, fewer than n semaphores are active. */
  lemma ActiveBound(s: State, run: Option<Pid>, p: Pid)
    requires Shape(s) && Placed(s, run) && p < s.cfg.n && s.semAdd[p] == NULL
    ensures |s.blocked| < s.cfg.n
  {
    forall a | a in s.blocked.Keys ensures s.blocked[a] != [] && s.blocked[a][0] in s.blocked[a] {}
    var q := HeadsOf(s.blocked, s.blocked.Keys);
    assert |s.blocked.Keys| == |s.blocked|;
    assert p !in q;
    NoDupAppend(q, p);
    NoDupBound(q + [p], s.cfg.n);
  }

  lemma {:induction false} DevSame(c: Config, b: map<Addr, seq<Pid>>, d: map<Addr, seq<Pid>>, k: nat)
    requires forall i :: 0 <= i < k ==> |QueueAt(b, DevAddr(c, i))| == |QueueAt(d, DevAddr(c, i))|
    ensures DevWaiters(c, b, k) == DevWaiters(c, d, k)
  {
    if k > 0 {
      DevSame(c, b, d, k - 1);
    }
  }

  lemma {:induction false} DevChange(c: Config, b: map<Addr, seq<Pid>>, d: map<Addr, seq<Pid>>, k: nat, j: nat)
    requires j < k
    requires forall i :: 0 <= i < k && i != j ==> |QueueAt(b, DevAddr(c, i))| == |QueueAt(d, DevAddr(c, i))|
    ensures DevWaiters(c, d, k) - |QueueAt(d, DevAddr(c, j))| == DevWaiters(c, b, k) - |QueueAt(b, DevAddr(c, j))|
  {
    if j == k - 1 {
      DevSame(c, b, d, k - 1);
    } else {
      DevChange(c, b, d, k - 1, j);
    }
  }

  // ---- the pieces --------------------------------------------------------

  /** The head waiter of a becomes ready. */
  lemma WakePlaced(s: State, run: Option<Pid>, a: Addr)
    requires Shape(s) && Placed(s, run) && a in s.blocked
    ensures s.blocked[a] != [] && s.blocked[a][0] < s.cfg.n
    ensures Placed(Wake(s, a), run)
    ensures forall b :: QueueAt(Wake(s, a).blocked, b) ==
              if b == a then s.blocked[a][1..] else QueueAt(s.blocked, b)
  {
    assert s.blocked[a][0] in s.blocked[a];
    var p := s.blocked[a][0];
    var t := Wake(s, a);
    assert p !in s.blocked[a][1..];
    NoDupAppend(s.ready, p);
    forall b, x {:trigger x in t.blocked[b]} | b in t.blocked && x in t.blocked[b]
      ensures x < s.cfg.n && t.semAdd[x] == b
    {
      assert x in s.blocked[b] && (b == a ==> x in s.blocked[a][1..]);
    }
    forall x | 0 <= x < s.cfg.n
      ensures x in t.free || x in t.ready || run == Some(x) ||
              (t.semAdd[x] in t.blocked && x in t.blocked[t.semAdd[x]])
    {
      if x in s.blocked[a] && x != p {
        assert x in s.blocked[a][1..];
      }
    }
  }

  /** The running process joins the queue of a. */
  lemma BlockPlaced(s: State, a: Addr, area: Cpu)
    requires Shape(s) && s.current.Some? && Placed(s, s.current) && 0 < a < MAXINT
    ensures Shape(Block(s, a, area)) && Placed(Block(s, a, area), None)
    ensures forall b :: QueueAt(Block(s, a, area).blocked, b) ==
              if b == a then QueueAt(s.blocked, a) + [s.current.value] else QueueAt(s.blocked, b)
  {
    var p := s.current.value;
    var t := Block(s, a, area);
    NoDupAppend(QueueAt(s.blocked, a), p);
    forall b, x {:trigger x in t.blocked[b]} | b in t.blocked && x in t.blocked[b]
      ensures x < s.cfg.n && t.semAdd[x] == b
    {
      if b == a {
        assert x in QueueAt(s.blocked, a) || x == p;
      } else {
        assert x in s.blocked[b];
      }
    }
    forall x | 0 <= x < s.cfg.n
      ensures x in t.free || x in t.ready ||
              (t.semAdd[x] in t.blocked && x in t.blocked[t.semAdd[x]])
    {
      if x == p {
        assert t.blocked[a][|t.blocked[a]| - 1] == p;
      } else if s.semAdd[x] in s.blocked && x in s.blocked[s.semAdd[x]] && s.semAdd[x] == a {
        assert x in s.blocked[a];
      }
    }
  }

  lemma UserSame(s: State, t: State, a: Addr)
    requires s.cfg == t.cfg && !IsDev(s.cfg, a)
    requires forall b :: b != a ==> QueueAt(t.blocked, b) == QueueAt(s.blocked, b)
    ensures DevWaiters(s.cfg, t.blocked, DEVICESEMNUM) == DevWaiters(s.cfg, s.blocked, DEVICESEMNUM)
  {
    DevSame(s.cfg, s.blocked, t.blocked, DEVICESEMNUM);
  }

  lemma DevMoved(s: State, t: State, i: nat)
    requires s.cfg == t.cfg && i < DEVICESEMNUM
    requires forall b :: b != DevAddr(s.cfg, i) ==> QueueAt(t.blocked, b) == QueueAt(s.blocked, b)
    ensures DevWaiters(s.cfg, t.blocked, DEVICESEMNUM) ==
            DevWaiters(s.cfg, s.blocked, DEVICESEMNUM)
            + |QueueAt(t.blocked, DevAddr(s.cfg, i))| - |QueueAt(s.blocked, DevAddr(s.cfg, i))|
  {
    DevChange(s.cfg, s.blocked, t.blocked, DEVICESEMNUM, i);
  }

  /** A user semaphore and its queue changed together. */
  lemma UserValued(s: State, t: State, a: Addr, v: int)
    requires Shape(s) && Valued(s) && s.cfg == t.cfg && !IsDev(s.cfg, a)
    requires t.sem == s.sem[a := v]
    requires forall b :: b != a ==> QueueAt(t.blocked, b) == QueueAt(s.blocked, b)
    requires |QueueAt(t.blocked, a)| == if v < 0 then -v else 0
    ensures Valued(t)
  {
    forall b | 0 < b < MAXINT && !IsDev(s.cfg, b)
      ensures |QueueAt(t.blocked, b)| == if Val(t.sem, b) < 0 then -Val(t.sem, b) else 0
    {
      assert |QueueAt(s.blocked, b)| == if Val(s.sem, b) < 0 then -Val(s.sem, b) else 0;
    }
    forall i | 0 <= i < DEVICESEMNUM
      ensures Val(t.sem, DevAddr(s.cfg, i)) <= -|QueueAt(t.blocked, DevAddr(s.cfg, i))|
    {
      assert IsDev(s.cfg, DevAddr(s.cfg, i));
    }
  }

  /** A device semaphore and its queue changed together. */
  lemma DevValued(s: State, t: State, i: nat, v: int)
    requires Shape(s) && Valued(s) && s.cfg == t.cfg && i < DEVICESEMNUM
    requires t.sem == s.sem[DevAddr(s.cfg, i) := v]
    requires forall b :: b != DevAddr(s.cfg, i) ==> QueueAt(t.blocked, b) == QueueAt(s.blocked, b)
    requires v <= -|QueueAt(t.blocked, DevAddr(s.cfg, i))|
    ensures Valued(t)
  {
    assert IsDev(s.cfg, DevAddr(s.cfg, i));
    forall b | 0 < b < MAXINT && !IsDev(s.cfg, b)
      ensures |QueueAt(t.blocked, b)| == if Val(t.sem, b) < 0 then -Val(t.sem, b) else 0
    {
      assert |QueueAt(s.blocked, b)| == if Val(s.sem, b) < 0 then -Val(s.sem, b) else 0;
    }
    forall j | 0 <= j < DEVICESEMNUM
      ensures Val(t.sem, DevAddr(s.cfg, j)) <= -|QueueAt(t.blocked, DevAddr(s.cfg, j))|
    {
      assert Val(s.sem, DevAddr(s.cfg, j)) <= -|QueueAt(s.blocked, DevAddr(s.cfg, j))|;
    }
  }

  // ---- V and P -----------------------------------------------------------

  /** A V that leaves the value at or below zero finds a waiter. */
  lemma VFindsWaiter(s: State, run: Option<Pid>, a: Addr)
    requires Core(s, run) && 0 < a < MAXINT && !IsDev(s.cfg, a)
    ensures Val(s.sem, a) + 1 <= 0 <==> a in s.blocked
  {
    assert |QueueAt(s.blocked, a)| == if Val(s.sem, a) < 0 then -Val(s.sem, a) else 0;
  }

  lemma VKeeps(s: State, a: Addr, area: Cpu)
    requires Inv(s) && Enabled(s, SysV(a, area))
    ensures Inv(Verhogen(s, a, area).0)
  {
    var t := AddSem(s, a, 1);
    VFindsWaiter(s, s.current, a);
    SamePlaces(s, t, s.current);
    assert |QueueAt(s.blocked, a)| == if Val(s.sem, a) < 0 then -Val(s.sem, a) else 0;
    if a in s.blocked {
      WakePlaced(t, s.current, a);
      var w := Wake(t, a);
      assert Counted(w) by { UserSame(s, w, a); }
      assert Valued(w) by { UserValued(s, w, a, Val(s.sem, a) + 1); }
    } else {
      assert Valued(t) by { UserValued(s, t, a, Val(s.sem, a) + 1); }
    }
  }

  lemma PBlockKeeps(s: State, a: Addr, area: Cpu)
    requires Inv(s) && Enabled(s, SysP(a, area)) && Val(s.sem, a) - 1 < 0
    ensures Core(Block(AddSem(s, a, -1), a, area), None)
  {
    var t := AddSem(s, a, -1);
    BlockPlaced(t, a, area);
    var w := Block(t, a, area);
    UserSame(s, w, a);
    assert |QueueAt(s.blocked, a)| == if Val(s.sem, a) < 0 then -Val(s.sem, a) else 0;
    UserValued(s, w, a, Val(s.sem, a) - 1);
  }

  lemma PPassKeeps(s: State, a: Addr, area: Cpu)
    requires Inv(s) && Enabled(s, SysP(a, area)) && Val(s.sem, a) - 1 >= 0
    ensures Inv(AddSem(s, a, -1))
  {
    var t := AddSem(s, a, -1);
    assert |QueueAt(s.blocked, a)| == if Val(s.sem, a) < 0 then -Val(s.sem, a) else 0;
    UserValued(s, t, a, Val(s.sem, a) - 1);
  }

  // ---- devices -----------------------------------------------------------

  /** Counters and saved states have no part in where processes are. */
  lemma SamePlaces(s: State, t: State, run: Option<Pid>)
    requires Shape(s) && Placed(s, run) && |t.saved| == |s.saved|
    requires t.cfg == s.cfg && t.free == s.free && t.ready == s.ready && t.blocked == s.blocked
    requires t.semAdd == s.semAdd && t.tree == s.tree
    ensures Shape(t) && Placed(t, run)
  {
  }

  lemma DevBlockKeeps(s: State, i: nat, area: Cpu)
    requires Inv(s) && !s.waitFlag && i < DEVICESEMNUM
    ensures Val(s.sem, DevAddr(s.cfg, i)) - 1 < 0
    ensures Core(Block(AddSem(s, DevAddr(s.cfg, i), -1), DevAddr(s.cfg, i), area)
                 .(softBlockCount := s.softBlockCount + 1), None)
  {
    var a := DevAddr(s.cfg, i);
    var t := AddSem(s, a, -1);
    SamePlaces(s, t, s.current);
    BlockPlaced(t, a, area);
    var b := Block(t, a, area);
    var w := b.(softBlockCount := s.softBlockCount + 1);
    SamePlaces(b, w, None);
    assert Counted(w) by { DevMoved(s, w, i); }
    assert Valued(w) by { DevValued(s, w, i, Val(s.sem, a) - 1); }
  }

  lemma DevWakeKeeps(s: State, i: nat, status: int)
    requires Inv(s) && i < DEVICESEMNUM && DevAddr(s.cfg, i) in s.blocked
    ensures Val(s.sem, DevAddr(s.cfg, i)) + 1 <= 0
    ensures s.blocked[DevAddr(s.cfg, i)] != [] && s.blocked[DevAddr(s.cfg, i)][0] < s.cfg.n
    ensures Core(DevWake(AddSem(s, DevAddr(s.cfg, i), 1), DevAddr(s.cfg, i), status), Runner(s))
  {
    var a := DevAddr(s.cfg, i);
    var t := AddSem(s, a, 1);
    SamePlaces(s, t, Runner(s));
    WakePlaced(t, Runner(s), a);
    var w := DevWake(t, a, status);
    SamePlaces(Wake(t, a), w, Runner(s));
    assert Counted(w) by { DevMoved(s, w, i); }
    assert Valued(w) by { DevValued(s, w, i, Val(s.sem, a) + 1); }
  }

  /** The mass V on the clock. */
  lemma WakeAllKeeps(s: State, i: nat)
    requires Inv(s) && i < DEVICESEMNUM && DevAddr(s.cfg, i) in s.blocked
    ensures Core(WakeAll(s, DevAddr(s.cfg, i)), Runner(s))
  {
    var a := DevAddr(s.cfg, i);
    var w := WakeAll(s, a);
    WakeAllPlaced(s, Runner(s), a);
    assert Counted(w) by { DevMoved(s, w, i); }
    assert Valued(w) by { DevValued(s, w, i, Val(s.sem, a) + |s.blocked[a]|); }
  }

  lemma WakeAllPlaced(s: State, run: Option<Pid>, a: Addr)
    requires Shape(s) && Placed(s, run) && a in s.blocked
    ensures Shape(WakeAll(s, a)) && Placed(WakeAll(s, a), run)
  {
    var q := s.blocked[a];
    var w := WakeAll(s, a);
    forall x | x in q ensures x < s.cfg.n && s.semAdd[x] == a && x !in s.ready && x !in s.free {}
    NoDupConcat(s.ready, q);
    forall b, x {:trigger x in w.blocked[b]} | b in w.blocked && x in w.blocked[b]
      ensures x < s.cfg.n && w.semAdd[x] == b
    {
      assert x in s.blocked[b];
    }
  }

  // ---- creation, quantum end, dispatch -----------------------------------

  lemma CreateKeeps(s: State, area: Cpu, init: Cpu)
    requires Inv(s) && !s.waitFlag
    ensures Inv(CreateProcess(s, area, init).0)
  {
    if s.free != [] {
      var p := s.free[0];
      assert p in s.free;
      var t := CreateProcess(s, area, init).0;
      assert p !in s.free[1..];
      assert forall x :: x in s.free <==> x == p || x in s.free[1..];
      NoDupAppend(s.ready, p);
      InsertSound(s.tree, s.current.value, p);
      assert Related(t) by {
        forall x | x in t.free ensures t.tree.kids[x] == [] && t.tree.parent[x] == None {
          assert x in s.free && x != p;
          assert x != s.current.value;
        }
      }
    }
  }

  lemma QuantumKeeps(s: State, area: Cpu)
    requires Inv(s) && !s.waitFlag
    ensures Core(s.(saved := s.saved[s.current.value := area],
                    ready := s.ready + [s.current.value], current := None), None)
  {
    NoDupAppend(s.ready, s.current.value);
  }

  /** What the scheduler's outcome says about the state it leaves. */
  ghost predicate AfterDispatch(t: State, o: Outcome) {
    match o
    case Load(c) => Inv(t) && !t.waitFlag && c == t.saved[t.current.value]
    case Wait => Inv(t) && t.waitFlag && t.ready == [] && t.softBlockCount > 0
    case Panic => Core(t, None) && t.ready == [] && t.processCount != 0 && t.softBlockCount == 0
    case _ => false
  }

  /** With no process running and at least one alive, the scheduler dispatches, waits or panics. */
  lemma SchedulerKeeps(s: State)
    requires Core(s, None) && Stale(s) && s.processCount >= 1
    ensures AfterDispatch(Scheduler(s).0, Scheduler(s).1)
  {
    if s.ready != [] {
      var p := s.ready[0];
      var t := Scheduler(s).0;
      assert p in s.ready && p !in s.ready[1..];
      assert forall x :: x in s.ready <==> x == p || x in s.ready[1..];
      assert Placed(t, Some(p));
    }
  }
}
