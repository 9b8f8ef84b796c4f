/** Killing a subtree: what terminateRecursively leaves behind, and exactly when
    it leaves the kernel's structures intact. */
module Kill {
  import opened Seqs
  import opened Forest
  import opened Nucleus
  import opened Keeps

  /** The queue half of Core: everything except the tree. */
  ghost predicate Queues(s: State, run: Option<Pid>) {
    Shape(s) && Placed(s, run) && Counted(s) && Valued(s)
  }

  /** vs are distinct live processes. */
  ghost predicate Victims(s: State, vs: seq<Pid>) {
    NoDup(vs) && forall v :: v in vs ==> v < |s.semAdd| && v !in s.free
  }

  function RunnerAfter(s: State, vs: seq<Pid>): Option<Pid> {
    if s.current.Some? && s.current.value in vs then None else s.current
  }

  /** The victims waiting on a. */
  function Hits(semAdd: seq<Addr>, vs: seq<Pid>, a: Addr): nat
    requires forall v :: v in vs ==> v < |semAdd|
  {
    if vs == [] then 0
    else
      assert vs[0] in vs; assert forall v :: v in vs[1..] ==> v in vs;
      (if semAdd[vs[0]] == a then 1 else 0) + Hits(semAdd, vs[1..], a)
  }

  /** The victims waiting on a device or on the clock. */
  function DevHits(c: Config, semAdd: seq<Addr>, vs: seq<Pid>): nat
    requires forall v :: v in vs ==> v < |semAdd|
  {
    if vs == [] then 0
    else
      assert vs[0] in vs; assert forall v :: v in vs[1..] ==> v in vs;
      (if IsDev(c, semAdd[vs[0]]) then 1 else 0) + DevHits(c, semAdd, vs[1..])
  }

  // ---- one victim --------------------------------------------------------

  /** outBlocked does what its comment says exactly when p is not the second
      of two or more. */
  lemma OutBlockedExact(blocked: map<Addr, seq<Pid>>, a: Addr, p: Pid)
    requires a in blocked && blocked[a] != [] && NoDup(blocked[a])
    ensures OutBlocked(blocked, a, p) == OutBlockedIntended(blocked, a, p) <==> !Second(blocked[a], p)
  {
    WithoutShrinks(blocked[a], p);
    if Second(blocked[a], p) {
      assert a in OutBlockedIntended(blocked, a, p);
    }
  }

  lemma WithoutShrinks(q: seq<Pid>, p: Pid)
    requires NoDup(q)
    ensures |Without(q, {p})| == if p in q then |q| - 1 else |q|
    ensures |q| == 1 ==> Without(q, {p}) == if q[0] == p then [] else q
  {
    if p in q {
      WithoutOne(q, Pos(q, p));
    } else {
      WithoutNone(q, {p});
    }
  }

  lemma BlockedVictim(s: State, run: Option<Pid>, v: Pid)
    requires Shape(s) && Placed(s, run) && v < s.cfg.n && s.semAdd[v] != NULL
    ensures v !in s.free && v !in s.ready && run != Some(v)
    ensures s.semAdd[v] in s.blocked && v in s.blocked[s.semAdd[v]]
    ensures 0 < s.semAdd[v] < MAXINT && s.blocked[s.semAdd[v]] != [] && NoDup(s.blocked[s.semAdd[v]])
  {
  }

  /** Placed as far as a kill keeps it: a blocked process may have been dropped
      from the queue its p_semAdd names. */
  ghost predicate Loose(s: State, run: Option<Pid>)
    requires Shape(s)
  {
    && Separate(s, run)
    && (forall x :: 0 <= x < s.cfg.n ==>
          x in s.free || x in s.ready || run == Some(x) || 0 < s.semAdd[x] < MAXINT)
  }

  lemma PlacedLoose(s: State, run: Option<Pid>)
    requires Shape(s) && Placed(s, run)
    ensures Loose(s, run)
    ensures forall v: Pid :: v < s.cfg.n ==> Found(s, v)
  {
  }

  /** The queue of a without v, as outBlocked leaves it. */
  function LeftAt(s: State, a: Addr, v: Pid): seq<Pid> {
    if v < |s.semAdd| && s.semAdd[v] == a && Second(QueueAt(s.blocked, a), v) then []
    else Without(QueueAt(s.blocked, a), {v})
  }

  /** t is s with the one victim v gone. */
  ghost predicate OneKilled(s: State, v: Pid, t: State)
    requires v < |s.semAdd|
  {
    && t.free == s.free + [v]
    && t.ready == Without(s.ready, {v})
    && (forall a :: QueueAt(t.blocked, a) == LeftAt(s, a, v))
    && (forall a :: a in t.blocked ==> t.blocked[a] != [])
    && t.semAdd == s.semAdd[v := NULL]
    && t.processCount == s.processCount - 1
    && t.saved == s.saved && t.tree == s.tree && t.cfg == s.cfg
    && t.current == s.current && t.waitFlag == s.waitFlag
    && t.softBlockCount == s.softBlockCount - (if IsDev(s.cfg, s.semAdd[v]) then 1 else 0)
    && t.sem == if s.semAdd[v] == NULL || IsDev(s.cfg, s.semAdd[v]) then s.sem
                else s.sem[s.semAdd[v] := Val(s.sem, s.semAdd[v]) + 1]
  }

  lemma KillOneIs(s: State, v: Pid)
    requires Shape(s) && Loose(s, s.current) && v < s.cfg.n && v !in s.free && Found(s, v)
    ensures OneKilled(s, v, KillOne(s, v))
  {
    if s.semAdd[v] != NULL {
      KillBlocked(s, v);
    } else {
      KillUnblocked(s, v);
    }
  }

  lemma KillBlocked(s: State, v: Pid)
    requires Shape(s) && Loose(s, s.current) && v < s.cfg.n && s.semAdd[v] != NULL && Found(s, v)
    ensures OneKilled(s, v, KillOne(s, v))
  {
    var a := s.semAdd[v];
    var d := OutBlocked(s.blocked, a, v);
    OutBlockedExact(s.blocked, a, v);
    assert KillOne(s, v).blocked == d;
    forall b ensures QueueAt(d, b) == LeftAt(s, b, v) {
      if b != a {
        WithoutNone(QueueAt(s.blocked, b), {v});
      }
    }
    WithoutNone(s.ready, {v});
  }

  lemma KillUnblocked(s: State, v: Pid)
    requires Shape(s) && Loose(s, s.current) && v < s.cfg.n && v !in s.free && s.semAdd[v] == NULL
    ensures OneKilled(s, v, KillOne(s, v))
  {
    assert !IsDev(s.cfg, NULL);
    forall b ensures QueueAt(s.blocked, b) == LeftAt(s, b, v) {
      WithoutNone(QueueAt(s.blocked, b), {v});
    }
    if s.current == Some(v) {
      WithoutNone(s.ready, {v});
    }
  }

  lemma KillOneLoose(s: State, v: Pid, t: State)
    requires Shape(s) && Loose(s, s.current) && v < s.cfg.n && v !in s.free && OneKilled(s, v, t)
    ensures Shape(t) && Loose(t, RunnerAfter(s, [v]))
  {
    NoDupAppend(s.free, v);
    WithoutNoDup(s.ready, {v});
    forall a | a in t.blocked ensures 0 < a < MAXINT && t.blocked[a] != [] && NoDup(t.blocked[a]) {
      assert QueueAt(t.blocked, a) == LeftAt(s, a, v);
      WithoutNoDup(QueueAt(s.blocked, a), {v});
    }
    forall a, x {:trigger x in t.blocked[a]} | a in t.blocked && x in t.blocked[a]
      ensures x < s.cfg.n && t.semAdd[x] == a
    {
      assert QueueAt(t.blocked, a) == LeftAt(s, a, v);
      assert x in s.blocked[a];
    }
  }

  /** The queue half of the invariant survives one kill that is not of the second in a queue. */
  lemma KillOneKeeps(s: State, v: Pid, t: State)
    requires Queues(s, s.current) && v < s.cfg.n && v !in s.free && OneKilled(s, v, t)
    requires !Second(QueueAt(s.blocked, s.semAdd[v]), v)
    ensures Queues(t, RunnerAfter(s, [v]))
  {
    assert Shape(t) && Placed(t, RunnerAfter(s, [v])) by { KillOnePlaced(s, v, t); }
    assert Counted(t) && Valued(t) by { KillOneCounts(s, v, t); }
  }

  lemma KillOnePlaced(s: State, v: Pid, t: State)
    requires Queues(s, s.current) && v < s.cfg.n && v !in s.free && OneKilled(s, v, t)
    requires !Second(QueueAt(s.blocked, s.semAdd[v]), v)
    ensures Shape(t) && Placed(t, RunnerAfter(s, [v]))
  {
    PlacedLoose(s, s.current);
    KillOneLoose(s, v, t);
    forall x | 0 <= x < s.cfg.n
      ensures x in t.free || x in t.ready || RunnerAfter(s, [v]) == Some(x) ||
              (t.semAdd[x] in t.blocked && x in t.blocked[t.semAdd[x]])
    {
      assert QueueAt(t.blocked, s.semAdd[x]) == LeftAt(s, s.semAdd[x], v);
    }
  }

  lemma KillOneCounts(s: State, v: Pid, t: State)
    requires Queues(s, s.current) && v < s.cfg.n && v !in s.free && OneKilled(s, v, t)
    requires !Second(QueueAt(s.blocked, s.semAdd[v]), v)
    ensures Counted(t) && Valued(t)
  {
    hide Placed;
    var a := s.semAdd[v];
    KillOneElsewhere(s, v, t);
    if a == NULL {
      NobodyAtNull(s, s.current);
      DevSame(s.cfg, s.blocked, t.blocked, DEVICESEMNUM);
      assert !IsDev(s.cfg, a);
    } else {
      BlockedVictim(s, s.current, v);
      assert |QueueAt(t.blocked, a)| == |QueueAt(s.blocked, a)| - 1 by {
        WithoutOne(s.blocked[a], Pos(s.blocked[a], v));
      }
      if IsDev(s.cfg, a) {
        var i :| 0 <= i < DEVICESEMNUM && DevAddr(s.cfg, i) == a;
        DevMoved(s, t, i);
        KillOneDevValued(s, t, i);
      } else {
        KillOneUserCounts(s, v, t);
      }
    }
  }

  lemma KillOneUserCounts(s: State, v: Pid, t: State)
    requires Shape(s) && Counted(s) && Valued(s) && v < |s.semAdd| && OneKilled(s, v, t)
    requires 0 < s.semAdd[v] < MAXINT && !IsDev(s.cfg, s.semAdd[v])
    requires forall b :: b != s.semAdd[v] ==> QueueAt(t.blocked, b) == QueueAt(s.blocked, b)
    requires |QueueAt(t.blocked, s.semAdd[v])| == |QueueAt(s.blocked, s.semAdd[v])| - 1
    ensures Counted(t) && Valued(t)
  {
    var a := s.semAdd[v];
    UserSame(s, t, a);
    assert |QueueAt(s.blocked, a)| == if Val(s.sem, a) < 0 then -Val(s.sem, a) else 0;
    UserValued(s, t, a, Val(s.sem, a) + 1);
  }

  lemma NobodyAtNull(s: State, run: Option<Pid>)
    requires Shape(s) && Placed(s, run)
    ensures QueueAt(s.blocked, NULL) == []
  {
  }

  lemma KillOneElsewhere(s: State, v: Pid, t: State)
    requires Queues(s, s.current) && v < s.cfg.n && v !in s.free && OneKilled(s, v, t)
    ensures forall b :: b != s.semAdd[v] ==> QueueAt(t.blocked, b) == QueueAt(s.blocked, b)
  {
    forall b | b != s.semAdd[v] ensures QueueAt(t.blocked, b) == QueueAt(s.blocked, b) {
      WithoutNone(QueueAt(s.blocked, b), {v});
    }
  }

  lemma KillOneDevValued(s: State, t: State, i: nat)
    requires Shape(s) && Valued(s) && s.cfg == t.cfg && i < DEVICESEMNUM && t.sem == s.sem
    requires forall b :: b != DevAddr(s.cfg, i) ==> QueueAt(t.blocked, b) == QueueAt(s.blocked, b)
    requires |QueueAt(t.blocked, DevAddr(s.cfg, i))| <= |QueueAt(s.blocked, DevAddr(s.cfg, i))|
    ensures Valued(t)
  {
    assert IsDev(s.cfg, DevAddr(s.cfg, i));
    forall b | 0 < b < MAXINT && !IsDev(s.cfg, b)
      ensures |QueueAt(t.blocked, b)| == if Val(t.sem, b) < 0 then -Val(t.sem, b) else 0
    {
      assert |QueueAt(s.blocked, b)| == if Val(s.sem, b) < 0 then -Val(s.sem, b) else 0;
    }
    forall j | 0 <= j < DEVICESEMNUM
      ensures Val(t.sem, DevAddr(s.cfg, j)) <= -|QueueAt(t.blocked, DevAddr(s.cfg, j))|
    {
      assert Val(s.sem, DevAddr(s.cfg, j)) <= -|QueueAt(s.blocked, DevAddr(s.cfg, j))|;
    }
  }

  // ---- all victims -------------------------------------------------------

  /** Some victim is met second in the queue of a. */
  ghost predicate DropsAt(s: State, vs: seq<Pid>, a: Addr)
    requires forall v :: v in vs ==> v < |s.semAdd|
  {
    exists j: nat :: j < |vs| && MetSecond(s, vs, j) && BlockedAt(s, vs[j], a)
  }

  predicate BlockedAt(s: State, v: Pid, a: Addr) {
    v < |s.semAdd| && s.semAdd[v] == a
  }

  /** The victims leave their queues and become free, in killing order; the
      others stay where they are, in their old order, except that nobody is left
      on a queue where a victim was met second. */
  ghost predicate Killed(s: State, vs: seq<Pid>, t: State)
    requires forall v :: v in vs ==> v < |s.semAdd|
  {
    && t.free == s.free + vs
    && t.ready == Without(s.ready, Elems(vs))
    && (forall a :: QueueAt(t.blocked, a) ==
          if DropsAt(s, vs, a) then [] else Without(QueueAt(s.blocked, a), Elems(vs)))
    && |t.semAdd| == |s.semAdd|
    && (forall x :: 0 <= x < |s.semAdd| ==> t.semAdd[x] == if x in vs then NULL else s.semAdd[x])
    && t.processCount == s.processCount - |vs|
    && t.softBlockCount == s.softBlockCount - DevHits(s.cfg, s.semAdd, vs)
    && (forall a :: Val(t.sem, a) ==
          Val(s.sem, a) + if a == NULL || IsDev(s.cfg, a) then 0 else Hits(s.semAdd, vs, a))
    && t.saved == s.saved && t.current == s.current && t.waitFlag == s.waitFlag && t.cfg == s.cfg
  }

  lemma {:induction false} HitsSame(semAdd: seq<Addr>, v: Pid, vs: seq<Pid>, c: Config, a: Addr)
    requires v < |semAdd| && v !in vs && forall x :: x in vs ==> x < |semAdd|
    ensures Hits(semAdd[v := NULL], vs, a) == Hits(semAdd, vs, a)
    ensures DevHits(c, semAdd[v := NULL], vs) == DevHits(c, semAdd, vs)
  {
    if vs != [] {
      assert vs[0] in vs; assert forall x :: x in vs[1..] ==> x in vs;
      HitsSame(semAdd, v, vs[1..], c, a);
    }
  }

  /** The victims are distinct live processes; the running one, if among them, comes last. */
  ghost predicate KillOrder(s: State, vs: seq<Pid>) {
    && Victims(s, vs)
    && (s.current.Some? && s.current.value in vs ==> s.current.value == vs[|vs| - 1])
  }

  /** After the first victim the rest is still to be killed. */
  lemma KillOrderRest(s: State, vs: seq<Pid>, t: State)
    requires Shape(s) && Loose(s, s.current) && KillOrder(s, vs) && vs != []
    requires vs[0] in vs && OneKilled(s, vs[0], t)
    ensures vs[0] !in vs[1..] && forall x :: x in vs[1..] ==> x in vs
    ensures Shape(t) && KillOrder(t, vs[1..])
    ensures vs[1..] != [] ==> Loose(t, t.current) && s.current != Some(vs[0])
    ensures RunnerAfter(t, vs[1..]) == RunnerAfter(s, vs) || vs[1..] == []
  {
    var v, rest := vs[0], vs[1..];
    assert v in vs && v !in rest && forall x :: x in rest ==> x in vs;
    assert forall x :: x in vs <==> x == v || x in rest;
    KillOneLoose(s, v, t);
    if rest != [] {
      assert rest[|rest| - 1] == vs[|vs| - 1];
      assert vs[|vs| - 1] in rest;
    }
  }

  lemma FirstVictim(s: State, vs: seq<Pid>)
    requires Shape(s) && Loose(s, s.current) && KillOrder(s, vs) && !ReachesNull(s, vs) && vs != []
    ensures vs[0] in vs && vs[0] < s.cfg.n == |s.semAdd| && vs[0] !in s.free
    ensures OneKilled(s, vs[0], KillOne(s, vs[0]))
    ensures KillOne(s, vs[0]).free == s.free + [vs[0]] && KillOne(s, vs[0]).current == s.current
    ensures KillOne(s, vs[0]).processCount == s.processCount - 1
    ensures forall v :: v in vs[1..] ==> v in vs
    ensures !ReachesNull(KillOne(s, vs[0]), vs[1..])
  {
    assert vs[0] in vs;
    KillOneIs(s, vs[0]);
  }

  /** t is what a kill of vs that reaches no NULL leaves of the free list and the processor. */
  ghost predicate LooseAfter(s: State, vs: seq<Pid>, t: State) {
    && Shape(t) && Loose(t, RunnerAfter(s, vs))
    && t.free == s.free + vs && t.current == s.current && t.processCount == s.processCount - |vs|
  }

  lemma LooseStep(s: State, vs: seq<Pid>, r: State)
    requires Shape(s) && Loose(s, s.current) && KillOrder(s, vs) && !ReachesNull(s, vs) && vs != []
    requires forall v :: v in vs ==> v < |s.semAdd|
    requires vs[1..] == [] ==> r == KillOne(s, vs[0])
    requires vs[1..] != [] ==> LooseAfter(KillOne(s, vs[0]), vs[1..], r)
    ensures LooseAfter(s, vs, r)
  {
    hide Shape, Loose, KillOrder, KillOne, OneKilled, ReachesNull, RunnerAfter;
    FirstVictim(s, vs);
    KillOrderRest(s, vs, KillOne(s, vs[0]));
    if vs[1..] == [] {
      assert vs == [vs[0]];
      KillOneLoose(s, vs[0], r);
    } else {
      assert s.free + [vs[0]] + vs[1..] == s.free + vs;
    }
  }

  /** As long as no NULL is reached, every victim is freed and nobody else is. */
  lemma {:induction false} KillAllLoose(s: State, vs: seq<Pid>)
    requires Shape(s) && Loose(s, s.current) && KillOrder(s, vs) && !ReachesNull(s, vs)
    ensures LooseAfter(s, vs, KillAll(s, vs))
    decreases |vs|
  {
    if vs != [] {
      hide Shape, Loose, KillOrder, Found, KillOne, OneKilled, RunnerAfter, LooseAfter;
      FirstVictim(s, vs);
      var t := KillOne(s, vs[0]);
      KillOrderRest(s, vs, t);
      if vs[1..] != [] {
        KillAllLoose(t, vs[1..]);
      }
      LooseStep(s, vs, KillAll(t, vs[1..]));
    }
  }

  lemma MetFirst(s: State, vs: seq<Pid>)
    requires vs != [] && forall v :: v in vs ==> v < |s.semAdd|
    ensures vs[0] in vs
    ensures MetSecond(s, vs, 0) <==> Second(QueueAt(s.blocked, s.semAdd[vs[0]]), vs[0])
  {
    assert Elems(vs[..0]) == {} && vs[0] in vs;
    WithoutNone(QueueAt(s.blocked, s.semAdd[vs[0]]), {});
  }

  /** Killing the first victim does not change whether a later one is met second,
      unless it drops that one's queue. */
  lemma MetShift(s: State, vs: seq<Pid>, t: State, j: nat)
    requires j + 1 < |vs| && NoDup(vs) && forall v :: v in vs ==> v < |s.semAdd|
    requires vs[0] in vs && vs[j + 1] in vs && OneKilled(s, vs[0], t)
    requires !(Second(QueueAt(s.blocked, s.semAdd[vs[0]]), vs[0]) && SameSem(s, vs[0], vs[j + 1]))
    ensures forall v :: v in vs[1..] ==> v in vs && v < |t.semAdd|
    ensures MetSecond(t, vs[1..], j) <==> MetSecond(s, vs, j + 1)
  {
    var rest := vs[1..];
    var a := s.semAdd[vs[j + 1]];
    assert rest[j] == vs[j + 1] && vs[0] != vs[j + 1];
    assert Elems(vs[..j + 1]) == {vs[0]} + Elems(rest[..j]) by {
      assert vs[..j + 1] == [vs[0]] + rest[..j];
    }
    assert QueueAt(t.blocked, a) == LeftAt(s, a, vs[0]);
    WithoutTwice(QueueAt(s.blocked, a), {vs[0]}, Elems(rest[..j]));
  }

  /** The first victim does not drop the queue of another. */
  ghost predicate FirstSpares(s: State, vs: seq<Pid>)
    requires vs != [] && forall v :: v in vs ==> v < |s.semAdd|
  {
    assert vs[0] in vs;
    Second(QueueAt(s.blocked, s.semAdd[vs[0]]), vs[0]) ==>
      forall k: nat {:trigger vs[k]} :: 0 < k < |vs| ==> !SameSem(s, vs[0], vs[k])
  }

  lemma RestFound(s: State, vs: seq<Pid>, t: State)
    requires vs != [] && NoDup(vs) && forall v :: v in vs ==> v < |s.semAdd| && Found(s, v)
    requires vs[0] in vs && OneKilled(s, vs[0], t) && FirstSpares(s, vs)
    ensures forall v :: v in vs[1..] ==> v < |t.semAdd| && Found(t, v)
    ensures forall j: nat :: j < |vs| - 1 ==> (MetSecond(t, vs[1..], j) <==> MetSecond(s, vs, j + 1))
    ensures forall j: nat, k: nat :: j < |vs| - 1 && k < |vs| - 1 ==>
      (SameSem(t, vs[1..][j], vs[1..][k]) <==> SameSem(s, vs[j + 1], vs[k + 1]))
  {
    var rest := vs[1..];
    forall j: nat | j < |rest| ensures rest[j] in vs && rest[j] == vs[j + 1] && Found(t, rest[j]) {
      assert vs[j + 1] in vs && vs[0] != vs[j + 1];
      assert QueueAt(t.blocked, s.semAdd[rest[j]]) == LeftAt(s, s.semAdd[rest[j]], vs[0]);
    }
    forall j: nat | j < |rest| ensures MetSecond(t, rest, j) <==> MetSecond(s, vs, j + 1) {
      assert vs[j + 1] in vs;
      MetShift(s, vs, t, j);
    }
  }

  /** The whole kill, as long as no later victim waits where an earlier one was met second. */
  lemma {:induction false} KillAllIs(s: State, vs: seq<Pid>)
    requires Shape(s) && Loose(s, s.current) && KillOrder(s, vs)
    requires (forall v :: v in vs ==> Found(s, v)) && !Strands(s, vs)
    ensures !ReachesNull(s, vs) && Killed(s, vs, KillAll(s, vs))
    decreases |vs|
  {
    if vs == [] {
      KilledNone(s);
    } else {
      MetFirst(s, vs);
      var t, rest := KillOne(s, vs[0]), vs[1..];
      KillOneIs(s, vs[0]);
      KillOrderRest(s, vs, t);
      RestFound(s, vs, t);
      NoneStranded(s, vs, t);
      if rest == [] {
        KilledNone(t);
      } else {
        KillAllIs(t, rest);
      }
      KilledStep(s, vs, t, KillAll(t, rest));
    }
  }

  lemma NoneStranded(s: State, vs: seq<Pid>, t: State)
    requires vs != [] && NoDup(vs) && forall v :: v in vs ==> v < |s.semAdd| && Found(s, v)
    requires vs[0] in vs && OneKilled(s, vs[0], t) && FirstSpares(s, vs) && !Strands(s, vs)
    ensures (forall v :: v in vs[1..] ==> v < |t.semAdd|) && !Strands(t, vs[1..])
  {
    RestFound(s, vs, t);
  }

  lemma KilledNone(s: State)
    ensures Killed(s, [], s)
  {
    assert Elems([]) == {};
    WithoutNone(s.ready, {});
    forall a ensures Without(QueueAt(s.blocked, a), {}) == QueueAt(s.blocked, a) {
      WithoutNone(QueueAt(s.blocked, a), {});
    }
  }

  lemma KilledStep(s: State, vs: seq<Pid>, t: State, r: State)
    requires vs != [] && NoDup(vs) && forall v :: v in vs ==> v < |s.semAdd| && Found(s, v)
    requires vs[0] in vs && OneKilled(s, vs[0], t) && FirstSpares(s, vs)
    requires (forall v :: v in vs[1..] ==> v < |t.semAdd|) && Killed(t, vs[1..], r)
    ensures Killed(s, vs, r)
  {
    hide Found, FirstSpares, DropsAt, NoDup;
    forall a ensures QueueAt(r.blocked, a) ==
        if DropsAt(s, vs, a) then [] else Without(QueueAt(s.blocked, a), Elems(vs)) {
      QueueStepAt(s, vs, t, r, a);
    }
    CountStep(s, vs, t, r);
    assert s.free + [vs[0]] + vs[1..] == s.free + vs;
  }

  lemma CountStep(s: State, vs: seq<Pid>, t: State, r: State)
    requires vs != [] && NoDup(vs) && forall v :: v in vs ==> v < |s.semAdd|
    requires vs[0] in vs && OneKilled(s, vs[0], t)
    requires (forall v :: v in vs[1..] ==> v < |t.semAdd|) && Killed(t, vs[1..], r)
    ensures r.ready == Without(s.ready, Elems(vs))
    ensures |r.semAdd| == |s.semAdd|
    ensures forall x :: 0 <= x < |s.semAdd| ==> r.semAdd[x] == if x in vs then NULL else s.semAdd[x]
    ensures r.softBlockCount == s.softBlockCount - DevHits(s.cfg, s.semAdd, vs)
    ensures forall a :: (Val(r.sem, a) ==
      Val(s.sem, a) + if a == NULL || IsDev(s.cfg, a) then 0 else Hits(s.semAdd, vs, a))
  {
    var v, rest := vs[0], vs[1..];
    assert vs == [v] + rest && v !in rest;
    assert Elems(vs) == {v} + Elems(rest);
    assert r.ready == Without(s.ready, Elems(vs)) by {
      WithoutTwice(s.ready, {v}, Elems(rest));
    }
    HitsSame(s.semAdd, v, rest, s.cfg, 0);
    forall a ensures Val(r.sem, a) ==
        Val(s.sem, a) + if a == NULL || IsDev(s.cfg, a) then 0 else Hits(s.semAdd, vs, a) {
      HitsSame(s.semAdd, v, rest, s.cfg, a);
    }
  }

  lemma QueueStepAt(s: State, vs: seq<Pid>, t: State, r: State, a: Addr)
    requires vs != [] && NoDup(vs) && forall v :: v in vs ==> v < |s.semAdd| && Found(s, v)
    requires vs[0] in vs && OneKilled(s, vs[0], t) && FirstSpares(s, vs)
    requires (forall v :: v in vs[1..] ==> v < |t.semAdd|) && Killed(t, vs[1..], r)
    ensures QueueAt(r.blocked, a) == if DropsAt(s, vs, a) then [] else Without(QueueAt(s.blocked, a), Elems(vs))
  {
    var v, rest := vs[0], vs[1..];
    assert Elems(vs) == {v} + Elems(rest) by { assert vs == [v] + rest; }
    RestFound(s, vs, t);
    MetFirst(s, vs);
    assert QueueAt(t.blocked, a) == LeftAt(s, a, v);
    if s.semAdd[v] == a && Second(QueueAt(s.blocked, a), v) {
      assert MetSecond(s, vs, 0) && BlockedAt(s, vs[0], a);
      assert QueueAt(r.blocked, a) == [];
    } else {
      WithoutTwice(QueueAt(s.blocked, a), {v}, Elems(rest));
      DropsAtRest(s, vs, t, a);
    }
  }

  lemma DropsAtRest(s: State, vs: seq<Pid>, t: State, a: Addr)
    requires vs != [] && NoDup(vs) && forall v :: v in vs ==> v < |s.semAdd| && Found(s, v)
    requires vs[0] in vs && OneKilled(s, vs[0], t) && FirstSpares(s, vs)
    requires !(s.semAdd[vs[0]] == a && Second(QueueAt(s.blocked, a), vs[0]))
    ensures forall v :: v in vs[1..] ==> v < |t.semAdd|
    ensures DropsAt(t, vs[1..], a) <==> DropsAt(s, vs, a)
  {
    var rest := vs[1..];
    RestFound(s, vs, t);
    MetFirst(s, vs);
    if DropsAt(t, rest, a) {
      var j: nat :| j < |rest| && MetSecond(t, rest, j) && BlockedAt(t, rest[j], a);
      assert MetSecond(s, vs, j + 1) && BlockedAt(s, vs[j + 1], a) by { assert rest[j] == vs[j + 1] != vs[0]; }
    }
    if DropsAt(s, vs, a) {
      var j: nat :| j < |vs| && MetSecond(s, vs, j) && BlockedAt(s, vs[j], a);
      assert j > 0;
      assert MetSecond(t, rest, j - 1) && BlockedAt(t, rest[j - 1], a) by { assert rest[j - 1] == vs[j] != vs[0]; }
    }
  }

  // ---- the NULL of a failing outBlocked -------------------------------------

  /** A live process that is on no queue any more. */
  ghost predicate Dropped(s: State, w: Pid) {
    && w < |s.semAdd| && s.semAdd[w] != NULL
    && w !in s.free && w !in s.ready && s.current != Some(w)
    && w !in QueueAt(s.blocked, s.semAdd[w])
  }

  lemma DroppedStays(s: State, v: Pid, w: Pid)
    requires Dropped(s, w) && v < |s.semAdd|
    ensures Dropped(KillOne(s, v), w)
  {
  }

  /** A dropped process is either met as a victim, which leads to NULL, or stays on no queue. */
  lemma {:induction false} DroppedForGood(s: State, vs: seq<Pid>, w: Pid)
    requires Dropped(s, w) && forall v :: v in vs ==> v < |s.semAdd|
    ensures w in vs ==> ReachesNull(s, vs)
    ensures !ReachesNull(s, vs) ==> Dropped(KillAll(s, vs), w)
    decreases |vs|
  {
    if vs != [] {
      assert vs[0] in vs && forall v :: v in vs[1..] ==> v in vs;
      assert forall v :: v in vs ==> v == vs[0] || v in vs[1..];
      DroppedStays(s, vs[0], w);
      DroppedForGood(KillOne(s, vs[0]), vs[1..], w);
    }
  }

  /** Killing the second of a queue drops everybody else on it. */
  lemma SecondDrops(s: State, v: Pid, w: Pid)
    requires Shape(s) && Loose(s, s.current) && v < s.cfg.n && Found(s, v)
    requires Second(QueueAt(s.blocked, s.semAdd[v]), v)
    requires w in QueueAt(s.blocked, s.semAdd[v]) && w != v
    ensures Dropped(KillOne(s, v), w)
  {
    assert v in QueueAt(s.blocked, s.semAdd[v]);
  }

  lemma {:induction false} StrandsReach(s: State, vs: seq<Pid>)
    requires Shape(s) && Loose(s, s.current) && KillOrder(s, vs)
    requires (forall v :: v in vs ==> Found(s, v)) && Strands(s, vs)
    ensures ReachesNull(s, vs)
    decreases |vs|
  {
    var t, rest := KillOne(s, vs[0]), vs[1..];
    MetFirst(s, vs);
    KillOneIs(s, vs[0]);
    KillOrderRest(s, vs, t);
    if FirstSpares(s, vs) {
      RestFound(s, vs, t);
      var j: nat, k: nat :| j < k < |vs| && MetSecond(s, vs, j) && SameSem(s, vs[j], vs[k]);
      assert j > 0;
      assert MetSecond(t, rest, j - 1) && SameSem(t, rest[j - 1], rest[k - 1]);
      StrandsReach(t, rest);
    } else {
      var k: nat :| 0 < k < |vs| && SameSem(s, vs[0], vs[k]);
      assert vs[k] in vs && rest[k - 1] == vs[k] && vs[k] in rest && vs[k] != vs[0];
      SecondDrops(s, vs[0], vs[k]);
      DroppedForGood(t, rest, vs[k]);
    }
  }

  /** A kill goes through NULL exactly when some victim is met second in its
      queue and a later victim waits in the same queue. */
  lemma NullExact(s: State, vs: seq<Pid>)
    requires Queues(s, s.current) && KillOrder(s, vs)
    ensures ReachesNull(s, vs) <==> Strands(s, vs)
  {
    PlacedLoose(s, s.current);
    if Strands(s, vs) {
      StrandsReach(s, vs);
    } else {
      KillAllIs(s, vs);
    }
  }

  // ---- when the queues survive ------------------------------------------------

  lemma {:induction false} KillAllKeeps(s: State, vs: seq<Pid>)
    requires Queues(s, s.current) && KillOrder(s, vs) && !Drops(s, vs)
    ensures Queues(KillAll(s, vs), RunnerAfter(s, vs))
    decreases |vs|
  {
    if vs != [] {
      MetFirst(s, vs);
      var t, rest := KillOne(s, vs[0]), vs[1..];
      PlacedLoose(s, s.current);
      KillOneIs(s, vs[0]);
      KillOneKeeps(s, vs[0], t);
      KillOrderRest(s, vs, t);
      if rest == [] {
        assert vs == [vs[0]];
        assert KillAll(t, rest) == t;
      } else {
        RestFound(s, vs, t);
        assert !Drops(t, rest);
        KillAllKeeps(t, rest);
      }
    }
  }

  /** Someone who is not a victim is on the queue where a victim is met second. */
  lemma LeftBehind(s: State, vs: seq<Pid>) returns (w: Pid, a: Addr)
    requires Queues(s, s.current) && KillOrder(s, vs) && Drops(s, vs) && !Strands(s, vs)
    ensures w !in vs && w in QueueAt(s.blocked, a) && DropsAt(s, vs, a)
  {
    var j: nat :| j < |vs| && MetSecond(s, vs, j);
    assert vs[j] in vs;
    a := s.semAdd[vs[j]];
    var q := Without(QueueAt(s.blocked, a), Elems(vs[..j]));
    w := q[0];
    WithoutNoDup(QueueAt(s.blocked, a), Elems(vs[..j]));
    assert w in q && w in s.blocked[a] && w != vs[j];
    forall k: nat | k < |vs| ensures vs[k] != w {
      if k < j {
        assert vs[k] in vs[..j];
      } else {
        assert k > j ==> !SameSem(s, vs[j], vs[k]);
      }
    }
    assert BlockedAt(s, vs[j], a);
  }

  /** Whoever is left on a queue when a victim is met second there is dropped. */
  lemma DropsSomeone(s: State, vs: seq<Pid>) returns (w: Pid)
    requires Queues(s, s.current) && KillOrder(s, vs) && Drops(s, vs) && !Strands(s, vs)
    ensures w !in vs && Dropped(KillAll(s, vs), w)
  {
    hide DropsAt, Strands, Drops, ReachesNull, KillAll;
    PlacedLoose(s, s.current);
    KillAllIs(s, vs);
    var a;
    w, a := LeftBehind(s, vs);
  }

  /** A kill reaches its end and keeps the queues exactly when no victim is met second in its queue. */
  lemma KillExact(s: State, vs: seq<Pid>)
    requires Queues(s, s.current) && KillOrder(s, vs)
    ensures !ReachesNull(s, vs) && Queues(KillAll(s, vs), RunnerAfter(s, vs)) <==> !Drops(s, vs)
  {
    NullExact(s, vs);
    if !Drops(s, vs) {
      KillAllKeeps(s, vs);
    } else if !Strands(s, vs) {
      var w := DropsSomeone(s, vs);
      KillAllCurrent(s, vs);
    }
  }

  lemma {:induction false} KillAllCurrent(s: State, vs: seq<Pid>)
    requires forall v :: v in vs ==> v < |s.semAdd|
    ensures KillAll(s, vs).current == s.current
    decreases |vs|
  {
    if vs != [] {
      assert vs[0] in vs && forall v :: v in vs[1..] ==> v in vs;
      KillAllCurrent(KillOne(s, vs[0]), vs[1..]);
    }
  }
}
