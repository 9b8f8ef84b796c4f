/** Terminating a process: the theorem about the whole subtree, and the
    stages through which terminateRecursively passes on the way. */
module Subtree {
  import opened Seqs
  import opened Forest
  import opened Nucleus
  import opened Keeps
  import opened Kill

  // ---- the victims of a subtree ------------------------------------------

  /** p may be the root of a kill: it is live, and if it is not the running
      process then the running process is not below it. */
  ghost predicate KillRoot(s: State, p: Pid)
    requires Shape(s) && Sound(s.tree)
  {
    p < s.cfg.n && p !in s.free
    && (s.current.Some? && s.current.value in Post(s.tree, p) ==> s.current.value == p)
  }

  /** What holds inside the kernel while a subtree is being killed. */
  ghost predicate Torn(s: State, run: Option<Pid>) {
    Shape(s) && Loose(s, run) && Related(s) && s.processCount == s.cfg.n - |s.free|
  }

  lemma CoreTorn(s: State, run: Option<Pid>)
    requires Core(s, run)
    ensures Torn(s, run)
  {
    PlacedLoose(s, run);
  }

  lemma SubtreeVictims(s: State, p: Pid)
    requires Torn(s, s.current) && KillRoot(s, p)
    ensures KillOrder(s, Post(s.tree, p))
  {
    PostNoDup(s.tree, p);
    forall v | v in Post(s.tree, p) ensures v < s.cfg.n && v !in s.free {
      PostUnder(s.tree, p, v);
      if v != p {
        assert v in s.tree.kids[s.tree.parent[v].value];
      }
    }
  }

  /** The running process may be the root of a kill. */
  lemma CurrentRoot(s: State)
    requires Inv(s) && !s.waitFlag
    ensures s.current.Some? && Core(s, s.current) && Shape(s) && Sound(s.tree)
    ensures s.current.value < s.cfg.n == |s.tree.parent| == |s.tree.born|
    ensures KillRoot(s, s.current.value)
  {
  }

  /** Pruning a whole subtree leaves no links at its members and touches no
      others, except that its root leaves its parent's child list. */
  lemma PruneSubtree(f: Forest, p: Pid, x: Pid)
    requires Sound(f) && p < |f.kids| && x < |f.kids|
    ensures var g := Prune(f, Elems(Post(f, p)));
      && (x in Post(f, p) ==> g.kids[x] == [] && g.parent[x] == None)
      && (x !in Post(f, p) ==>
            && g.parent[x] == f.parent[x]
            && g.kids[x] == if f.parent[p] == Some(x) then Without(f.kids[x], {p}) else f.kids[x])
  {
    var V := Elems(Post(f, p));
    PostUnder(f, p, x);
    forall c | c in f.kids[x]
      ensures c in V <==> x in Post(f, p) || (c == p && f.parent[p] == Some(x))
    {
      PostUnder(f, p, c);
      if Under(f, x, p) && c == p {
        UnderYounger(f, x, p);
      }
    }
    if x in Post(f, p) {
      WithoutAll(f.kids[x], V);
    } else {
      WithoutSame(f.kids[x], V, if f.parent[p] == Some(x) then {p} else {});
      WithoutNone(f.kids[x], {});
    }
  }

  lemma {:induction false} WithoutSame(q: seq<nat>, a: set<nat>, b: set<nat>)
    requires forall x :: x in q ==> (x in a <==> x in b)
    ensures Without(q, a) == Without(q, b)
  {
    if q != [] {
      assert q[0] in q;
      WithoutSame(q[1..], a, b);
    }
  }

  // ---- the theorem -------------------------------------------------------

  lemma TerminateRelated(s: State, p: Pid, t: State)
    requires Shape(s) && Related(s) && KillRoot(s, p) && Shape(t) && t.cfg == s.cfg
    requires t.tree == Prune(s.tree, Elems(Post(s.tree, p))) && t.free == s.free + Post(s.tree, p)
    ensures Related(t)
  {
    PruneSound(s.tree, Elems(Post(s.tree, p)));
    assert s.tree.parent[p].Some? ==> p in s.tree.kids[s.tree.parent[p].value];
    forall x | x in t.free && x < s.cfg.n
      ensures t.tree.kids[x] == [] && t.tree.parent[x] == None
    {
      PruneSubtree(s.tree, p, x);
    }
  }

  lemma TerminateTorn(s: State, p: Pid)
    requires Torn(s, s.current) && KillRoot(s, p) && !KillNull(s, p)
    ensures Torn(Terminate(s, p), RunnerAfter(s, Post(s.tree, p)))
    ensures Terminate(s, p).free == s.free + Post(s.tree, p)
  {
    var vs := Post(s.tree, p);
    SubtreeVictims(s, p);
    KillAllLoose(s, vs);
    SameLooseTree(KillAll(s, vs), Terminate(s, p), RunnerAfter(s, vs));
    TerminateRelated(s, p, Terminate(s, p));
  }

  /** Terminating p reaches its end exactly when no victim waits where an earlier
      one was met second in the queue. */
  lemma TerminateEnds(s: State, p: Pid)
    requires Core(s, s.current) && KillRoot(s, p)
    ensures KillNull(s, p) <==> KillStrands(s, p)
  {
    CoreTorn(s, s.current);
    SubtreeVictims(s, p);
    NullExact(s, Post(s.tree, p));
  }

  /** If it does, exactly p and its descendants are freed, once each, and everyone
      else's queue, order and tree links are left alone, except that nobody is left
      on a queue where a victim was met second. */
  lemma TerminateIs(s: State, p: Pid)
    requires Core(s, s.current) && KillRoot(s, p) && !KillStrands(s, p)
    ensures !KillNull(s, p)
    ensures KillOrder(s, Post(s.tree, p))
    ensures Killed(s, Post(s.tree, p), Terminate(s, p))
    ensures forall x: Pid :: x in Post(s.tree, p) <==> x < s.cfg.n && Under(s.tree, x, p)
    ensures Torn(Terminate(s, p), RunnerAfter(s, Post(s.tree, p)))
  {
    CoreTorn(s, s.current);
    SubtreeVictims(s, p);
    PlacedLoose(s, s.current);
    KillAllIs(s, Post(s.tree, p));
    TerminateTorn(s, p);
    forall x: Pid ensures x in Post(s.tree, p) <==> x < s.cfg.n && Under(s.tree, x, p) {
      PostUnder(s.tree, p, x);
    }
  }

  /** If no victim is met second in its queue, nobody else is affected at all. */
  lemma TerminateClean(s: State, p: Pid)
    requires Core(s, s.current) && KillRoot(s, p) && !KillDrops(s, p)
    ensures !KillStrands(s, p) && !KillNull(s, p)
    ensures forall a :: QueueAt(Terminate(s, p).blocked, a) == Without(QueueAt(s.blocked, a), Elems(Post(s.tree, p)))
    ensures Core(Terminate(s, p), RunnerAfter(s, Post(s.tree, p)))
  {
    hide Placed, Loose, Valued, Counted, Sound, Killed;
    var vs := Post(s.tree, p);
    TerminateIs(s, p);
    KilledClean(s, vs, Terminate(s, p));
    KillAllKeeps(s, vs);
    SameQueues(KillAll(s, vs), Terminate(s, p), RunnerAfter(s, vs));
  }

  lemma KilledClean(s: State, vs: seq<Pid>, t: State)
    requires (forall v :: v in vs ==> v < |s.semAdd|) && Killed(s, vs, t) && !Drops(s, vs)
    ensures forall a :: QueueAt(t.blocked, a) == Without(QueueAt(s.blocked, a), Elems(vs))
  {
  }

  lemma SameQueues(s: State, t: State, run: Option<Pid>)
    requires Queues(s, run) && t == s.(tree := t.tree) && |t.tree.kids| == |s.tree.kids|
    ensures Queues(t, run)
  {
  }

  lemma DroppedUnplaced(s: State, f: Forest, w: Pid)
    requires Dropped(s, w)
    ensures !Core(s.(tree := f), None)
  {
  }

  /** SYS 2 of a process with a parent comes to its end and keeps the kernel's
      structures exactly when no victim is met second in its queue. */
  lemma TerminateExact(s: State)
    requires Inv(s) && !s.waitFlag && s.tree.parent[s.current.value].Some?
    ensures !KillNull(s, s.current.value) && Core(Terminate(s, s.current.value), None) <==>
      CanTerminate(s, s.current.value)
  {
    var p := s.current.value;
    CoreTorn(s, s.current);
    SubtreeVictims(s, p);
    TerminateEnds(s, p);
    if CanTerminate(s, p) {
      TerminateClean(s, p);
    } else if !KillStrands(s, p) {
      var vs := Post(s.tree, p);
      var w := DropsSomeone(s, vs);
      DroppedUnplaced(KillAll(s, vs), Prune(s.tree, Elems(vs)), w);
    }
  }

  /** The parent of the terminated process survives, so someone is left. */
  lemma SomeoneSurvives(s: State)
    requires Inv(s) && !s.waitFlag && s.tree.parent[s.current.value].Some? && !KillNull(s, s.current.value)
    ensures Terminate(s, s.current.value).processCount >= 1
  {
    var p := s.current.value;
    var q := s.tree.parent[p].value;
    var t := Terminate(s, p);
    CoreTorn(s, s.current);
    TerminateTorn(s, p);
    assert p in s.tree.kids[q];
    PostUnder(s.tree, p, q);
    if q in Post(s.tree, p) {
      UnderYounger(s.tree, q, p);
      assert false;
    }
    NoDupAppend(t.free, q);
    NoDupBound(t.free + [q], s.cfg.n);
  }

  // ---- the stages --------------------------------------------------------

  /** The victims under the first i children of p. */
  ghost function FirstKids(f: Forest, p: Pid, i: nat): (r: seq<Pid>)
    requires Sound(f) && p < |f.kids| && i <= |f.kids[p]|
    ensures forall v :: v in r ==> v < |f.kids|
  {
    forall v | v in Posts(f, p, f.kids[p][..i]) ensures v < |f.kids| {
      PostsUnder(f, p, f.kids[p][..i], v);
    }
    Posts(f, p, f.kids[p][..i])
  }

  /** terminateRecursively(p) after i turns of its loop. */
  ghost function Stage(s: State, p: Pid, i: nat): State
    requires Shape(s) && Sound(s.tree) && p < s.cfg.n && i <= |s.tree.kids[p]|
  {
    KillAll(s, FirstKids(s.tree, p, i)).(tree := Prune(s.tree, Elems(FirstKids(s.tree, p, i))))
  }

  /** One of these turns goes through NULL. */
  ghost predicate StageNull(s: State, p: Pid, i: nat)
    requires Shape(s) && Sound(s.tree) && p < s.cfg.n && i <= |s.tree.kids[p]|
  {
    ReachesNull(s, FirstKids(s.tree, p, i))
  }

  ghost function CutOff(s: State, c: Pid): State
    requires |s.tree.parent| == |s.tree.kids|
  {
    s.(tree := Prune(s.tree, {c}))
  }

  lemma {:induction false} KillAllSplit(s: State, a: seq<Pid>, b: seq<Pid>)
    requires forall v :: v in a + b ==> v < |s.semAdd|
    ensures (forall v :: v in a ==> v < |s.semAdd|) && (forall v :: v in b ==> v < |s.semAdd|)
    ensures KillAll(s, a + b) == KillAll(KillAll(s, a), b)
    ensures ReachesNull(s, a + b) <==> ReachesNull(s, a) || ReachesNull(KillAll(s, a), b)
    decreases |a|
  {
    assert forall v :: v in a ==> v in a + b;
    assert forall v :: v in b ==> v in a + b;
    if a == [] {
      assert a + b == b;
    } else {
      assert (a + b)[1..] == a[1..] + b && (a + b)[0] == a[0] && a[0] in a;
      assert forall v :: v in a[1..] + b ==> v in a + b;
      KillAllSplit(KillOne(s, a[0]), a[1..], b);
    }
  }

  lemma KillOneTree(s: State, v: Pid, f: Forest)
    requires v < |s.semAdd|
    ensures KillOne(s.(tree := f), v) == KillOne(s, v).(tree := f)
  {
    var t := s.(tree := f);
    if s.semAdd[v] != NULL {
      var a := s.semAdd[v];
      if v in QueueAt(s.blocked, a) {
        if IsDev(s.cfg, a) {
          assert KillOne(t, v) == KillOne(s, v).(tree := f);
        } else {
          assert KillOne(t, v) == KillOne(s, v).(tree := f);
        }
      }
    }
  }

  /** The queues are killed the same way whatever the tree looks like. */
  lemma {:induction false} KillAllTree(s: State, vs: seq<Pid>, f: Forest)
    requires forall v :: v in vs ==> v < |s.semAdd|
    ensures KillAll(s.(tree := f), vs) == KillAll(s, vs).(tree := f)
    ensures ReachesNull(s.(tree := f), vs) <==> ReachesNull(s, vs)
    decreases |vs|
  {
    if vs != [] {
      assert vs[0] in vs && forall v :: v in vs[1..] ==> v in vs;
      KillOneTree(s, vs[0], f);
      KillAllTree(KillOne(s, vs[0]), vs[1..], f);
    }
  }

  lemma FirstKidsGrow(f: Forest, p: Pid, i: nat)
    requires Sound(f) && p < |f.kids| && i < |f.kids[p]|
    ensures FirstKids(f, p, i + 1) == FirstKids(f, p, i) + Post(f, Kid(f, p, i))
    ensures NoDup(FirstKids(f, p, i + 1))
    ensures forall v :: v in FirstKids(f, p, i) ==> v !in Post(f, Kid(f, p, i))
  {
    var ks := f.kids[p];
    var c := Kid(f, p, i);
    assert ks[..i + 1] == ks[..i] + [c];
    assert forall x :: x in ks[..i] + [c] ==> x in ks;
    PostsSplit(f, p, ks[..i], [c]);
    assert Posts(f, p, [c]) == Post(f, c) + Posts(f, p, [c][1..]);
    PostsNoDup(f, p, ks[..i + 1]);
    assert FirstKids(f, p, i + 1) == FirstKids(f, p, i) + Post(f, c);
    NoDupApart(FirstKids(f, p, i), Post(f, c));
  }

  /** The victims under p are those under its children, and then p. */
  lemma {:induction false} FirstKidsPrefix(f: Forest, p: Pid, i: nat) returns (rest: seq<Pid>)
    requires Sound(f) && p < |f.kids| && i <= |f.kids[p]|
    ensures Post(f, p) == FirstKids(f, p, i) + rest && rest != [] && rest[|rest| - 1] == p
    decreases |f.kids[p]| - i
  {
    if i == |f.kids[p]| {
      assert f.kids[p][..i] == f.kids[p];
      rest := [p];
    } else {
      FirstKidsGrow(f, p, i);
      rest := FirstKidsPrefix(f, p, i + 1);
      rest := Post(f, Kid(f, p, i)) + rest;
      assert FirstKids(f, p, i) + rest == Post(f, p);
    }
  }

  lemma FirstKidsClosed(f: Forest, p: Pid, i: nat, x: Pid)
    requires Sound(f) && p < |f.kids| && i <= |f.kids[p]| && x in FirstKids(f, p, i)
    ensures forall c :: c in f.kids[x] ==> c in FirstKids(f, p, i)
    ensures x in Post(f, p)
  {
    var ks := f.kids[p][..i];
    PostsUnder(f, p, ks, x);
    var d :| d in ks && Under(f, x, d);
    forall c | c in f.kids[x] ensures c in FirstKids(f, p, i) {
      assert Under(f, c, d);
      PostsUnder(f, p, ks, c);
    }
    var rest := FirstKidsPrefix(f, p, i);
  }

  /** Every stage keeps the kernel's structures as far as a kill does, with the
      children of p that are still to come unharmed. */
  lemma StageKeeps(s: State, p: Pid, i: nat)
    requires Torn(s, s.current) && KillRoot(s, p) && i <= |s.tree.kids[p]| && !StageNull(s, p, i)
    ensures Torn(Stage(s, p, i), s.current) && Stage(s, p, i).current == s.current
    ensures Stage(s, p, i).free == s.free + FirstKids(s.tree, p, i)
    ensures Stage(s, p, i).tree.kids[p] == s.tree.kids[p][i..]
    ensures p !in FirstKids(s.tree, p, i)
  {
    var vs := FirstKids(s.tree, p, i);
    var k := KillAll(s, vs);
    StageOrder(s, p, i);
    KillAllLoose(s, vs);
    StageKids(s.tree, p, i);
    PruneSound(s.tree, Elems(vs));
    SameLooseTree(k, Stage(s, p, i), s.current);
    StageRelated(s, p, i, Stage(s, p, i));
  }

  lemma StageRelated(s: State, p: Pid, i: nat, t: State)
    requires Shape(s) && Related(s) && p < s.cfg.n && i <= |s.tree.kids[p]|
    requires t.tree == Prune(s.tree, Elems(FirstKids(s.tree, p, i)))
    requires Shape(t) && t.cfg == s.cfg && t.free == s.free + FirstKids(s.tree, p, i)
    ensures Related(t)
  {
    var f, vs := s.tree, FirstKids(s.tree, p, i);
    PruneSound(f, Elems(vs));
    forall x | x in t.free && x < s.cfg.n
      ensures t.tree.kids[x] == [] && t.tree.parent[x] == None
    {
      if x in vs {
        FirstKidsClosed(f, p, i, x);
        WithoutAll(f.kids[x], Elems(vs));
      }
    }
  }

  lemma StageOrder(s: State, p: Pid, i: nat)
    requires Torn(s, s.current) && KillRoot(s, p) && i <= |s.tree.kids[p]|
    ensures KillOrder(s, FirstKids(s.tree, p, i))
    ensures RunnerAfter(s, FirstKids(s.tree, p, i)) == s.current
    ensures p !in FirstKids(s.tree, p, i)
  {
    SubtreeVictims(s, p);
    var rest := FirstKidsPrefix(s.tree, p, i);
    KillOrderPrefix(s, FirstKids(s.tree, p, i), rest);
  }

  lemma KillOrderPrefix(s: State, vs: seq<Pid>, rest: seq<Pid>)
    requires KillOrder(s, vs + rest) && rest != []
    ensures KillOrder(s, vs) && RunnerAfter(s, vs) == s.current
    ensures rest[|rest| - 1] !in vs
  {
    assert forall v :: v in vs ==> v in vs + rest;
    NoDupApart(vs, rest);
    assert rest[|rest| - 1] in rest;
    forall i, j | 0 <= i < j < |vs| ensures vs[i] != vs[j] {
      assert (vs + rest)[i] != (vs + rest)[j];
    }
  }

  lemma StageKids(f: Forest, p: Pid, i: nat)
    requires Sound(f) && p < |f.kids| && i <= |f.kids[p]|
    ensures Prune(f, Elems(FirstKids(f, p, i))).kids[p] == f.kids[p][i..]
  {
    var ks, V := f.kids[p], Elems(FirstKids(f, p, i));
    PostsMembers(f, p, ks[..i]);
    assert ks == ks[..i] + ks[i..];
    NoDupApart(ks[..i], ks[i..]);
    forall c | c in ks[i..] ensures c !in V {
      PostsUnder(f, p, ks[..i], c);
      if c in V {
        var d :| d in ks[..i] && Under(f, c, d);
        SiblingsApart(f, c, p, c, d);
        assert false;
      }
    }
    WithoutConcat(ks[..i], ks[i..], V);
    WithoutAll(ks[..i], V);
    WithoutNone(ks[i..], V);
  }

  /** One turn of the loop: the next child is cut off ... */
  lemma StageCut(s: State, p: Pid, i: nat)
    requires Torn(s, s.current) && KillRoot(s, p) && i < |s.tree.kids[p]| && !StageNull(s, p, i)
    ensures var c := Kid(s.tree, p, i);
      var u := CutOff(Stage(s, p, i), c);
      && Torn(u, u.current) && u.current == s.current && KillRoot(u, c)
      && u.tree == Prune(s.tree, Elems(FirstKids(s.tree, p, i)) + {c})
      && Post(u.tree, c) == Post(s.tree, c)
      && s.current != Some(c)
  {
    var f, vs := s.tree, FirstKids(s.tree, p, i);
    var c := Kid(f, p, i);
    var t := Stage(s, p, i);
    StageKeeps(s, p, i);
    FirstKidsGrow(f, p, i);
    PruneTwice(f, Elems(vs), {c});
    PostPrune(f, Elems(vs) + {c}, c);
    CutOffKeeps(t, c, s.current);
    KidRoot(s, p, i);
  }

  /** ... and killed. */
  lemma StageStep(s: State, p: Pid, i: nat)
    requires Torn(s, s.current) && KillRoot(s, p) && i < |s.tree.kids[p]| && !StageNull(s, p, i)
    ensures var c := Kid(s.tree, p, i);
      var u := CutOff(Stage(s, p, i), c);
      && Torn(u, u.current) && u.current == s.current && KillRoot(u, c)
      && (KillNull(u, c) <==> StageNull(s, p, i + 1))
      && Terminate(u, c) == Stage(s, p, i + 1)
      && s.current != Some(c)
  {
    var c := Kid(s.tree, p, i);
    StageCut(s, p, i);
    StageKill(s, p, i, CutOff(Stage(s, p, i), c));
  }

  lemma StageKill(s: State, p: Pid, i: nat, u: State)
    requires Shape(s) && Sound(s.tree) && p < s.cfg.n && i < |s.tree.kids[p]| && !StageNull(s, p, i)
    requires Shape(u) && Sound(u.tree) && u == CutOff(Stage(s, p, i), Kid(s.tree, p, i))
    requires u.tree == Prune(s.tree, Elems(FirstKids(s.tree, p, i)) + {Kid(s.tree, p, i)})
    requires Post(u.tree, Kid(s.tree, p, i)) == Post(s.tree, Kid(s.tree, p, i))
    ensures KillNull(u, Kid(s.tree, p, i)) <==> StageNull(s, p, i + 1)
    ensures Terminate(u, Kid(s.tree, p, i)) == Stage(s, p, i + 1)
  {
    var f, vs := s.tree, FirstKids(s.tree, p, i);
    var c := Kid(f, p, i);
    var ws := Post(f, c);
    PostInRange(f, c);
    FirstKidsGrow(f, p, i);
    KillAllSplit(s, vs, ws);
    KillAllTree(KillAll(s, vs), ws, u.tree);
    assert Elems(vs + ws) == Elems(vs) + {c} + Elems(ws);
    PruneTwice(f, Elems(vs) + {c}, Elems(ws));
  }

  /** The running process, if it dies at all, is the root of the kill. */
  lemma KidRoot(s: State, p: Pid, i: nat)
    requires Torn(s, s.current) && KillRoot(s, p) && i < |s.tree.kids[p]|
    ensures Kid(s.tree, p, i) !in s.free
    ensures s.current.Some? ==> s.current.value !in Post(s.tree, Kid(s.tree, p, i))
  {
    var c := Kid(s.tree, p, i);
    assert c in s.tree.kids[p];
    if s.current.Some? && s.current.value in Post(s.tree, c) {
      PostUnder(s.tree, c, s.current.value);
      UnderChild(s.tree, s.current.value, c, p);
      PostUnder(s.tree, p, s.current.value);
      UnderYounger(s.tree, p, c);
      assert false;
    }
  }

  lemma CutOffKeeps(t: State, c: Pid, run: Option<Pid>)
    requires Torn(t, run)
    ensures Torn(CutOff(t, c), run)
  {
    var u := CutOff(t, c);
    PruneSound(t.tree, {c});
    SameLooseTree(t, u, run);
  }

  lemma SameLooseTree(s: State, t: State, run: Option<Pid>)
    requires Shape(s) && Loose(s, run) && |t.tree.kids| == |s.tree.kids|
    requires t == s.(tree := t.tree)
    ensures Shape(t) && Loose(t, run)
  {
  }

  /** After the loop p itself is freed. */
  lemma StageLast(s: State, p: Pid)
    requires Torn(s, s.current) && KillRoot(s, p) && !StageNull(s, p, |s.tree.kids[p]|)
    ensures var t := Stage(s, p, |s.tree.kids[p]|);
      && Torn(t, s.current) && t.current == s.current
      && p !in t.free && t.tree.kids[p] == []
      && t.tree.parent[p] == s.tree.parent[p]
      && (s.tree.parent[p] == None ==> CutOff(t, p) == t)
  {
    StageKeeps(s, p, |s.tree.kids[p]|);
    if s.tree.parent[p] == None {
      PruneAbsent(Stage(s, p, |s.tree.kids[p]|).tree, p);
    }
  }

  lemma StageLastKill(s: State, p: Pid)
    requires Shape(s) && Sound(s.tree) && p < s.cfg.n && !StageNull(s, p, |s.tree.kids[p]|)
    ensures var t := Stage(s, p, |s.tree.kids[p]|);
      && |t.semAdd| == |s.semAdd|
      && (KillNull(s, p) <==> !Found(t, p))
      && Terminate(s, p) == KillOne(CutOff(t, p), p)
  {
    var f := s.tree;
    var i := |f.kids[p]|;
    var vs := FirstKids(f, p, i);
    var k := KillAll(s, vs);
    assert f.kids[p][..i] == f.kids[p];
    assert Post(f, p) == vs + [p];
    PostInRange(f, p);
    KillAllSplit(s, vs, [p]);
    NullOne(k, p);
    KillOneTree(k, p, CutOff(Stage(s, p, i), p).tree);
    assert Elems(vs + [p]) == Elems(vs) + {p};
    PruneTwice(f, Elems(vs), {p});
  }

  /** Once a turn of the loop goes through NULL, the whole kill does. */
  lemma StageNullAll(s: State, p: Pid, i: nat)
    requires Shape(s) && Sound(s.tree) && p < s.cfg.n && i <= |s.tree.kids[p]| && StageNull(s, p, i)
    ensures KillNull(s, p)
  {
    PostInRange(s.tree, p);
    var rest := FirstKidsPrefix(s.tree, p, i);
    KillAllSplit(s, FirstKids(s.tree, p, i), rest);
  }

  lemma NullOne(s: State, v: Pid)
    requires v < |s.semAdd|
    ensures ReachesNull(s, [v]) <==> !Found(s, v)
    ensures KillAll(s, [v]) == KillOne(s, v)
  {
    assert [v][1..] == [];
    assert KillAll(KillOne(s, v), []) == KillOne(s, v);
    assert !ReachesNull(KillOne(s, v), []);
  }

  lemma StageFirst(s: State, p: Pid)
    requires Shape(s) && Sound(s.tree) && p < s.cfg.n
    ensures Stage(s, p, 0) == s && !StageNull(s, p, 0)
  {
    assert FirstKids(s.tree, p, 0) == [];
    assert Elems([]) == {};
    PruneNothing(s.tree);
  }
}
