/** The process forest as the pcb tree fields describe it: for each process its
    child list (newest first), its parent, and the moment it was created.

    `born` and `clock` are auxiliary: they have no counterpart in the C code and
    record creation order, which is what makes the parent relation acyclic. */
module Forest {
  import opened Seqs

  type Pid = nat

  datatype Forest = Forest(
    kids: seq<seq<Pid>>,
    parent: seq<Option<Pid>>,
    born: seq<nat>,
    clock: nat)

  ghost predicate Sound(f: Forest) {
    && |f.parent| == |f.kids| == |f.born|
    && (forall p :: 0 <= p < |f.kids| ==> NoDup(f.kids[p]))
    && (forall p, c {:trigger c in f.kids[p]} :: 0 <= p < |f.kids| && c in f.kids[p] ==>
          c < |f.kids| && f.parent[c] == Some(p))
    && (forall c :: 0 <= c < |f.kids| && f.parent[c].Some? ==>
          && f.parent[c].value < |f.kids|
          && c in f.kids[f.parent[c].value]
          && f.born[f.parent[c].value] < f.born[c])
    && (forall c :: 0 <= c < |f.kids| ==> f.born[c] < f.clock)
  }

  /** insertChild: c becomes the first child of p. */
  function Insert(f: Forest, p: Pid, c: Pid): Forest
    requires Sound(f) && p < |f.kids| && c < |f.kids|
  {
    f.(kids := f.kids[p := [c] + f.kids[p]],
       parent := f.parent[c := Some(p)],
       born := f.born[c := f.clock],
       clock := f.clock + 1)
  }

  /** Every process of V is cut from its parent. */
  function Prune(f: Forest, V: set<Pid>): Forest
    requires |f.parent| == |f.kids|
  {
    f.(kids := seq(|f.kids|, p requires 0 <= p < |f.kids| => Without(f.kids[p], V)),
       parent := seq(|f.kids|, c requires 0 <= c < |f.kids| => if c in V then None else f.parent[c]))
  }

  lemma InsertSound(f: Forest, p: Pid, c: Pid)
    requires Sound(f) && p < |f.kids| && c < |f.kids| && p != c
    requires f.kids[c] == [] && f.parent[c] == None
    ensures Sound(Insert(f, p, c))
  {
    assert c !in f.kids[p];
    var g := Insert(f, p, c);
    forall x | 0 <= x < |g.kids| && g.parent[x].Some?
      ensures g.parent[x].value < |g.kids| && x in g.kids[g.parent[x].value]
      ensures g.born[g.parent[x].value] < g.born[x]
    {
      if x != c {
        assert x in f.kids[f.parent[x].value];
        assert f.parent[x].value != c;
      }
    }
  }

  lemma PruneSound(f: Forest, V: set<Pid>)
    requires Sound(f)
    ensures Sound(Prune(f, V))
  {
    forall p | 0 <= p < |f.kids| ensures NoDup(Prune(f, V).kids[p]) {
      WithoutNoDup(f.kids[p], V);
    }
  }

  lemma PruneTwice(f: Forest, V: set<Pid>, W: set<Pid>)
    requires Sound(f)
    ensures Prune(Prune(f, V), W) == Prune(f, V + W)
  {
    forall p | 0 <= p < |f.kids| ensures Prune(Prune(f, V), W).kids[p] == Prune(f, V + W).kids[p] {
      WithoutTwice(f.kids[p], V, W);
    }
  }

  lemma PruneNothing(f: Forest)
    requires Sound(f)
    ensures Prune(f, {}) == f
  {
    forall p | 0 <= p < |f.kids| ensures Prune(f, {}).kids[p] == f.kids[p] {
      WithoutNone(f.kids[p], {});
    }
  }

  lemma PruneAbsent(f: Forest, p: Pid)
    requires Sound(f) && p < |f.kids| && f.parent[p] == None
    ensures Prune(f, {p}) == f
  {
    forall x | 0 <= x < |f.kids| ensures Prune(f, {p}).kids[x] == f.kids[x] {
      WithoutNone(f.kids[x], {p});
    }
  }

  function Kid(f: Forest, p: Pid, i: nat): (c: Pid)
    requires Sound(f) && p < |f.kids| && i < |f.kids[p]|
    ensures c == f.kids[p][i] && c in f.kids[p] && c < |f.kids| && f.parent[c] == Some(p)
  {
    assert f.kids[p][i] in f.kids[p];
    f.kids[p][i]
  }

  // ---- descendants ------------------------------------------------------

  /** x is p or a descendant of p. */
  ghost predicate Under(f: Forest, x: Pid, p: Pid)
    requires Sound(f) && x < |f.kids| && p < |f.kids|
    decreases f.born[x]
  {
    x == p || (f.parent[x].Some? && Under(f, f.parent[x].value, p))
  }

  /** The subtree of p in the order in which terminateRecursively frees it. */
  ghost function Post(f: Forest, p: Pid): (r: seq<Pid>)
    requires Sound(f) && p < |f.kids|
    ensures r != [] && r[|r| - 1] == p
    decreases f.clock - f.born[p], |f.kids[p]| + 1
  {
    Posts(f, p, f.kids[p]) + [p]
  }

  ghost function Posts(f: Forest, p: Pid, cs: seq<Pid>): seq<Pid>
    requires Sound(f) && p < |f.kids|
    requires forall c :: c in cs ==> c in f.kids[p]
    decreases f.clock - f.born[p], |cs|
  {
    if cs == [] then [] else assert cs[0] in cs; Post(f, cs[0]) + Posts(f, p, cs[1..])
  }

  lemma {:induction false} UnderYounger(f: Forest, x: Pid, p: Pid)
    requires Sound(f) && x < |f.kids| && p < |f.kids| && Under(f, x, p)
    ensures f.born[p] <= f.born[x]
    ensures x != p ==> f.born[p] < f.born[x]
    decreases f.born[x]
  {
    if x != p {
      UnderYounger(f, f.parent[x].value, p);
    }
  }

  lemma {:induction false} UnderChild(f: Forest, x: Pid, c: Pid, p: Pid)
    requires Sound(f) && x < |f.kids| && p < |f.kids| && c in f.kids[p] && Under(f, x, c)
    ensures Under(f, x, p)
    decreases f.born[x]
  {
    if x != c {
      UnderChild(f, f.parent[x].value, c, p);
    }
  }

  /** A proper descendant is under one of the children. */
  lemma {:induction false} UnderSomeChild(f: Forest, x: Pid, p: Pid) returns (c: Pid)
    requires Sound(f) && x < |f.kids| && p < |f.kids| && Under(f, x, p) && x != p
    ensures c in f.kids[p] && Under(f, x, c)
    decreases f.born[x]
  {
    if f.parent[x] == Some(p) {
      c := x;
    } else {
      c := UnderSomeChild(f, f.parent[x].value, p);
    }
  }

  /** Subtrees of different children of one process do not meet. */
  lemma {:induction false} SiblingsApart(f: Forest, x: Pid, p: Pid, c: Pid, d: Pid)
    requires Sound(f) && x < |f.kids| && p < |f.kids| && c in f.kids[p] && d in f.kids[p]
    requires Under(f, x, c) && Under(f, x, d)
    ensures c == d
    decreases f.born[x]
  {
    if c != d {
      if x == c {
        UnderYounger(f, p, d);
        assert false;
      } else if x == d {
        UnderYounger(f, p, c);
        assert false;
      } else {
        SiblingsApart(f, f.parent[x].value, p, c, d);
      }
    }
  }

  /** Post lists exactly the subtree. */
  lemma {:induction false} PostUnder(f: Forest, p: Pid, x: Pid)
    requires Sound(f) && p < |f.kids|
    ensures x in Post(f, p) <==> x < |f.kids| && Under(f, x, p)
    decreases f.clock - f.born[p], |f.kids[p]| + 1
  {
    PostsUnder(f, p, f.kids[p], x);
    if x < |f.kids| && x != p {
      if Under(f, x, p) {
        var c := UnderSomeChild(f, x, p);
      }
      if c :| c in f.kids[p] && Under(f, x, c) {
        UnderChild(f, x, c, p);
      }
    }
  }

  lemma {:induction false} PostsUnder(f: Forest, p: Pid, cs: seq<Pid>, x: Pid)
    requires Sound(f) && p < |f.kids| && forall c :: c in cs ==> c in f.kids[p]
    ensures x in Posts(f, p, cs) <==> x < |f.kids| && exists c :: c in cs && Under(f, x, c)
    decreases f.clock - f.born[p], |cs|
  {
    if cs != [] {
      assert cs[0] in cs;
      PostUnder(f, cs[0], x);
      PostsUnder(f, p, cs[1..], x);
      assert forall c :: c in cs <==> c == cs[0] || c in cs[1..];
    }
  }

  lemma PostInRange(f: Forest, p: Pid)
    requires Sound(f) && p < |f.kids|
    ensures forall x :: x in Post(f, p) ==> x < |f.kids|
  {
    forall x | x in Post(f, p) ensures x < |f.kids| {
      PostUnder(f, p, x);
    }
  }

  /** Each process of the subtree is listed once. */
  lemma {:induction false} PostNoDup(f: Forest, p: Pid)
    requires Sound(f) && p < |f.kids|
    ensures NoDup(Post(f, p))
    decreases f.clock - f.born[p], |f.kids[p]| + 1
  {
    PostsNoDup(f, p, f.kids[p]);
    PostsUnder(f, p, f.kids[p], p);
    forall c | c in f.kids[p] ensures !Under(f, p, c) {
      if Under(f, p, c) {
        UnderYounger(f, p, c);
        assert false;
      }
    }
    NoDupAppend(Posts(f, p, f.kids[p]), p);
  }

  lemma {:induction false} PostsNoDup(f: Forest, p: Pid, cs: seq<Pid>)
    requires Sound(f) && p < |f.kids| && NoDup(cs) && forall c :: c in cs ==> c in f.kids[p]
    ensures NoDup(Posts(f, p, cs))
    decreases f.clock - f.born[p], |cs|
  {
    if cs != [] {
      assert cs[0] in cs;
      PostNoDup(f, cs[0]);
      PostsNoDup(f, p, cs[1..]);
      forall x | x in Post(f, cs[0]) ensures x !in Posts(f, p, cs[1..]) {
        PostUnder(f, cs[0], x);
        PostsUnder(f, p, cs[1..], x);
        if c :| c in cs[1..] && Under(f, x, c) {
          SiblingsApart(f, x, p, cs[0], c);
          assert false;
        }
      }
      NoDupConcat(Post(f, cs[0]), Posts(f, p, cs[1..]));
    }
  }

  lemma {:induction false} PostsSplit(f: Forest, p: Pid, cs: seq<Pid>, ds: seq<Pid>)
    requires Sound(f) && p < |f.kids|
    requires forall c :: c in cs + ds ==> c in f.kids[p]
    ensures (forall c :: c in cs ==> c in cs + ds) && (forall d :: d in ds ==> d in cs + ds)
    ensures Posts(f, p, cs + ds) == Posts(f, p, cs) + Posts(f, p, ds)
  {
    if cs == [] {
      assert cs + ds == ds;
    } else {
      assert (cs + ds)[1..] == cs[1..] + ds;
      PostsSplit(f, p, cs[1..], ds);
    }
  }

  /** Cutting processes outside the subtree of p (or p itself) leaves that subtree alone. */
  lemma {:induction false} PostPrune(f: Forest, V: set<Pid>, p: Pid)
    requires Sound(f) && p < |f.kids|
    requires forall x :: x in Post(f, p) && x in V ==> x == p
    ensures Sound(Prune(f, V)) && Post(Prune(f, V), p) == Post(f, p)
    decreases f.clock - f.born[p], |f.kids[p]| + 1
  {
    PruneSound(f, V);
    forall x | x in Posts(f, p, f.kids[p]) ensures x !in V {
      PostsUnder(f, p, f.kids[p], x);
      if x == p {
        var c :| c in f.kids[p] && Under(f, p, c);
        UnderYounger(f, p, c);
        assert false;
      }
    }
    PostsMembers(f, p, f.kids[p]);
    WithoutNone(f.kids[p], V);
    PostsPrune(f, V, p, f.kids[p]);
  }

  lemma {:induction false} PostsMembers(f: Forest, p: Pid, cs: seq<Pid>)
    requires Sound(f) && p < |f.kids| && forall c :: c in cs ==> c in f.kids[p]
    ensures forall c :: c in cs ==> c in Posts(f, p, cs)
  {
    if cs != [] {
      PostsMembers(f, p, cs[1..]);
    }
  }

  lemma {:induction false} PostsPrune(f: Forest, V: set<Pid>, p: Pid, cs: seq<Pid>)
    requires Sound(f) && Sound(Prune(f, V)) && p < |f.kids|
    requires forall c :: c in cs ==> c in f.kids[p]
    requires forall x :: x in Posts(f, p, cs) ==> x !in V
    ensures forall c :: c in cs ==> c in Prune(f, V).kids[p]
    ensures Posts(Prune(f, V), p, cs) == Posts(f, p, cs)
    decreases f.clock - f.born[p], |cs|
  {
    PostsMembers(f, p, cs);
    if cs != [] {
      assert cs[0] in cs;
      PostPrune(f, V, cs[0]);
      PostsPrune(f, V, p, cs[1..]);
    }
  }
}
