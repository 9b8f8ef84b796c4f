/** Process control blocks: the circular queues they are linked into. */
module Pcbs {
  import opened Seqs
  import opened Forest
  import opened Nucleus

  /** A pcb; id is its index in procTable. */
  class Pcb {
    const id: nat
    var next: Pcb?
    var prev: Pcb?
    var prnt: Pcb?
    var child: Pcb?
    var sib: Pcb?
    var prevsib: Pcb?
    var semAdd: Addr
    var s: Cpu

    constructor (id: nat)
      ensures this.id == id
    {
      this.id := id;
      next, prev, prnt, child, sib, prevsib := null, null, null, null, null, null;
    }
  }

  /** A procTable: the pcb with id i is at index i. */
  ghost predicate IsTable(t: seq<Pcb>) {
    forall i :: 0 <= i < |t| ==> t[i].id == i
  }

  ghost predicate InTable(t: seq<Pcb>, p: Pcb) {
    p.id < |t| && t[p.id] == p && p in Objs(t)
  }

  ghost predicate Below(q: seq<Pid>, n: nat) {
    forall i :: 0 <= i < |q| ==> q[i] < n
  }

  function Objs(t: seq<Pcb>): set<Pcb> {
    set p | p in t
  }

  // ---- rings ---------------------------------------------------------------

  /** The queue links of a whole procTable at one moment. */
  datatype Links = Links(next: seq<Pcb?>, prev: seq<Pcb?>)

  ghost function Nexts(t: seq<Pcb>): (r: seq<Pcb?>)
    reads Objs(t)`next
    ensures |r| == |t| && forall i :: 0 <= i < |t| ==> r[i] == t[i].next
  {
    if t == [] then [] else
      var u := t[..|t| - 1];
      assert t[|t| - 1] in Objs(t) && Objs(u) <= Objs(t);
      Nexts(u) + [t[|t| - 1].next]
  }

  ghost function Prevs(t: seq<Pcb>): (r: seq<Pcb?>)
    reads Objs(t)`prev
    ensures |r| == |t| && forall i :: 0 <= i < |t| ==> r[i] == t[i].prev
  {
    if t == [] then [] else
      var u := t[..|t| - 1];
      assert t[|t| - 1] in Objs(t) && Objs(u) <= Objs(t);
      Prevs(u) + [t[|t| - 1].prev]
  }

  ghost function LinksOf(t: seq<Pcb>): (m: Links)
    reads Objs(t)`next, Objs(t)`prev
    ensures Fits(t, m)
    ensures forall i :: 0 <= i < |t| ==> m.next[i] == t[i].next && m.prev[i] == t[i].prev
  {
    Links(Nexts(t), Prevs(t))
  }

  ghost predicate Fits(t: seq<Pcb>, m: Links) {
    |m.next| == |m.prev| == |t|
  }

  ghost predicate Link(t: seq<Pcb>, m: Links, a: Pid, b: Pid)
    requires Fits(t, m) && a < |t| && b < |t|
  {
    m.next[a] == t[b] && m.prev[b] == t[a]
  }

  ghost predicate LinkAt(t: seq<Pcb>, m: Links, q: seq<Pid>, i: nat)
    requires Fits(t, m) && Below(q, |t|) && i + 1 < |q|
  {
    Link(t, m, q[i], q[i + 1])
  }

  /** tp is the tail pointer of a circular doubly linked queue whose members,
      head first, are q. */
  ghost predicate Ring(t: seq<Pcb>, m: Links, tp: Pcb?, q: seq<Pid>) {
    && Fits(t, m) && Below(q, |t|)
    && if q == [] then tp == null
       else
         && tp == t[q[|q| - 1]]
         && Link(t, m, q[|q| - 1], q[0])
         && forall i :: 0 <= i < |q| - 1 ==> LinkAt(t, m, q, i)
  }

  /** Only members of q may have different links. */
  ghost predicate SameOutside(m: Links, m': Links, q: seq<Pid>) {
    && |m.next| == |m.prev| == |m'.next| == |m'.prev|
    && forall x :: 0 <= x < |m.next| && x !in q ==> m'.next[x] == m.next[x] && m'.prev[x] == m.prev[x]
  }

  lemma SameTrans(m: Links, m1: Links, m2: Links, q1: seq<Pid>, q2: seq<Pid>, q: seq<Pid>)
    requires SameOutside(m, m1, q1) && SameOutside(m1, m2, q2)
    requires (forall x :: x in q1 ==> x in q) && (forall x :: x in q2 ==> x in q)
    ensures SameOutside(m, m2, q)
  {
  }

  lemma EmptyRing(t: seq<Pcb>, m: Links)
    requires Fits(t, m)
    ensures Ring(t, m, null, []) && NoDup<Pid>([])
  {
  }

  lemma RingEmpty(t: seq<Pcb>, m: Links, tp: Pcb?, q: seq<Pid>)
    requires Ring(t, m, tp, q)
    ensures tp == null <==> q == []
    ensures q != [] ==> q[0] < |t|
  {
  }

  lemma SameSelf(t: seq<Pcb>, m: Links, q: seq<Pid>)
    requires Fits(t, m)
    ensures SameOutside(m, m, q)
  {
  }

  /** A ring none of whose members is in q is untouched. */
  lemma RingKept(t: seq<Pcb>, m: Links, m': Links, q: seq<Pid>, tp: Pcb?, r: seq<Pid>)
    requires Ring(t, m, tp, r) && SameOutside(m, m', q)
    requires forall x :: x in r ==> x !in q
    ensures Ring(t, m', tp, r)
  {
    forall i | 0 <= i < |r| ensures r[i] !in q {
      assert r[i] in r;
    }
    forall i | 0 <= i < |r| - 1 ensures LinkAt(t, m', r, i) {
      assert LinkAt(t, m, r, i);
    }
  }

  function EmptyProcQ(tp: Pcb?): bool {
    tp == null
  }

  function HeadProcQ(tp: Pcb?): Pcb?
    reads tp
  {
    if EmptyProcQ(tp) then null else tp.next
  }

  /** Insertion at the tail. */
  method InsertProcQ(ghost t: seq<Pcb>, tp: Pcb?, p: Pcb, ghost q: seq<Pid>) returns (tp': Pcb?)
    requires IsTable(t) && InTable(t, p) && NoDup(q) && p.id !in q
    requires Ring(t, LinksOf(t), tp, q)
    modifies Objs(t)`next, Objs(t)`prev
    ensures Ring(t, LinksOf(t), tp', q + [p.id])
    ensures SameOutside(old(LinksOf(t)), LinksOf(t), q + [p.id])
  {
    hide LinksOf;
    if EmptyProcQ(tp) {
      p.prev := p;
      p.next := p;
    } else {
      assert tp.next == t[q[0]];
      tp.next.prev := p;
      p.next := tp.next;
      tp.next := p;
      p.prev := tp;
    }
    ghost var r, m := q + [p.id], LinksOf(t);
    forall i | 0 <= i < |r| - 1 ensures LinkAt(t, m, r, i) {
      if i < |q| - 1 {
        assert LinkAt(t, old(LinksOf(t)), q, i);
        assert q[i] != q[|q| - 1] && q[i + 1] != q[0];
      }
    }
    return p;
  }

  /** The neighbours of position k on the ring. */
  function PredOf(q: seq<Pid>, k: nat): Pid
    requires k < |q|
  {
    if k == 0 then q[|q| - 1] else q[k - 1]
  }

  function SuccOf(q: seq<Pid>, k: nat): Pid
    requires k < |q|
  {
    if k == |q| - 1 then q[0] else q[k + 1]
  }

  lemma RingNeighbours(t: seq<Pcb>, m: Links, tp: Pcb?, q: seq<Pid>, k: nat)
    requires Ring(t, m, tp, q) && k < |q|
    ensures m.prev[q[k]] == t[PredOf(q, k)] && m.next[q[k]] == t[SuccOf(q, k)]
  {
    if k > 0 { assert LinkAt(t, m, q, k - 1); }
    if k < |q| - 1 { assert LinkAt(t, m, q, k); }
  }

  /** Only the forward link of a and the backward link of b have changed. */
  ghost predicate Relinked(t: seq<Pcb>, m: Links, m': Links, a: Pid, b: Pid) {
    && Fits(t, m) && Fits(t, m') && a < |t| && b < |t|
    && Link(t, m', a, b)
    && (forall x :: 0 <= x < |t| && x != a ==> m'.next[x] == m.next[x])
    && (forall x :: 0 <= x < |t| && x != b ==> m'.prev[x] == m.prev[x])
  }

  /** r is q without its position k. */
  ghost predicate Skips(q: seq<Pid>, k: nat, r: seq<Pid>) {
    |r| == |q| - 1 && forall i :: 0 <= i < |r| ==> r[i] == SkipAt(q, k, i)
  }

  function SkipAt(q: seq<Pid>, k: nat, i: nat): Pid
    requires i + 1 < |q|
  {
    if i < k then q[i] else q[i + 1]
  }

  lemma WithoutSkips(q: seq<Pid>, k: nat, n: nat)
    requires NoDup(q) && Below(q, n) && k < |q|
    ensures Skips(q, k, Without(q, {q[k]})) && Below(Without(q, {q[k]}), n)
  {
    WithoutOne(q, k);
  }

  lemma UnlinkedInside(t: seq<Pcb>, m: Links, m': Links, tp: Pcb?, q: seq<Pid>, k: nat, r: seq<Pid>, i: nat)
    requires NoDup(q) && Ring(t, m, tp, q) && k < |q| && Skips(q, k, r) && Below(r, |t|) && i + 1 < |r|
    requires Relinked(t, m, m', PredOf(q, k), SuccOf(q, k))
    ensures LinkAt(t, m', r, i)
  {
    assert r[i] == SkipAt(q, k, i) && r[i + 1] == SkipAt(q, k, i + 1);
    if i != k - 1 {
      var j := if i < k then i else i + 1;
      assert LinkAt(t, m, q, j);
      assert q[j] != PredOf(q, k) && q[j + 1] != SuccOf(q, k);
    }
  }

  /** Linking the neighbours of position k to each other takes it out. */
  lemma RingUnlinked(t: seq<Pcb>, m: Links, m': Links, tp: Pcb?, tp': Pcb?, q: seq<Pid>, k: nat, r: seq<Pid>)
    requires NoDup(q) && Ring(t, m, tp, q) && k < |q| && |q| >= 2 && Skips(q, k, r) && Below(r, |t|)
    requires Relinked(t, m, m', PredOf(q, k), SuccOf(q, k))
    requires tp' == if k == |q| - 1 then t[q[k - 1]] else tp
    ensures Ring(t, m', tp', r)
  {
    forall i | 0 <= i < |r| - 1 ensures LinkAt(t, m', r, i) {
      UnlinkedInside(t, m, m', tp, q, k, r, i);
    }
    assert r[0] == SkipAt(q, k, 0) && r[|r| - 1] == SkipAt(q, k, |r| - 1);
    if 0 < k < |q| - 1 {
      assert q[|q| - 1] != PredOf(q, k) && q[0] != SuccOf(q, k);
    }
  }

  /** The neighbours of x, the member at position k, are linked to each other. */
  method Unlink(ghost t: seq<Pcb>, ghost tp: Pcb?, x: Pcb, ghost q: seq<Pid>, ghost k: nat)
    requires IsTable(t) && NoDup(q) && Ring(t, LinksOf(t), tp, q)
    requires k < |q| && |q| >= 2 && x == t[q[k]]
    modifies Objs(t)`next, Objs(t)`prev
    ensures Ring(t, LinksOf(t), if k == |q| - 1 then t[q[k - 1]] else tp, Without(q, {q[k]}))
    ensures SameOutside(old(LinksOf(t)), LinksOf(t), q)
  {
    hide LinksOf;
    ghost var m := LinksOf(t);
    RingNeighbours(t, m, tp, q, k);
    assert q[k] != PredOf(q, k) && q[k] != SuccOf(q, k);
    assert t[PredOf(q, k)].id == PredOf(q, k) && t[SuccOf(q, k)].id == SuccOf(q, k);
    x.next.prev := x.prev;
    x.prev.next := x.next;
    WithoutSkips(q, k, |t|);
    RingUnlinked(t, m, LinksOf(t), tp, if k == |q| - 1 then t[q[k - 1]] else tp, q, k, Without(q, {q[k]}));
  }

  /** Removal of p, wherever it stands; NULL and no change if it is not there. */
  method OutProcQ(ghost t: seq<Pcb>, tp: Pcb?, p: Pcb, ghost q: seq<Pid>) returns (r: Pcb?, tp': Pcb?)
    requires IsTable(t) && InTable(t, p) && NoDup(q)
    requires Ring(t, LinksOf(t), tp, q)
    modifies Objs(t)`next, Objs(t)`prev
    ensures r == if p.id in q then p else null
    ensures Ring(t, LinksOf(t), tp', Without(q, {p.id}))
    ensures SameOutside(old(LinksOf(t)), LinksOf(t), q)
    ensures p.id !in q ==> tp' == tp && LinksOf(t) == old(LinksOf(t))
  {
    hide LinksOf;
    tp' := tp;
    ghost var m := LinksOf(t);
    if EmptyProcQ(tp) {
      return null, tp;
    } else if p == tp {
      ghost var n := |q| - 1;
      assert p.id == q[n];
      RingNeighbours(t, m, tp, q, n);
      WithoutSkips(q, n, |t|);
      if HeadProcQ(tp) == tp {
        assert n == 0 by { assert t[q[0]].id == q[0]; }
        tp' := null;
      } else {
        tp' := tp.prev;
        Unlink(t, tp, tp, q, n);
      }
      return tp, tp';
    } else {
      var current := tp.next;
      ghost var k := 0;
      while current != tp
        invariant 0 <= k < |q| && current == t[q[k]]
        invariant p.id !in q[..k]
        invariant LinksOf(t) == m
        decreases |q| - k
      {
        RingNeighbours(t, m, tp, q, k);
        if current != p {
          current := current.next;
          k := k + 1;
        } else {
          Unlink(t, tp, current, q, k);
          return current, tp;
        }
      }
      assert k == |q| - 1;
      WithoutNone(q, {p.id});
      return null, tp;
    }
  }

  /** Removal of the head. */
  method RemoveProcQ(ghost t: seq<Pcb>, tp: Pcb?, ghost q: seq<Pid>) returns (r: Pcb?, tp': Pcb?)
    requires IsTable(t) && NoDup(q)
    requires Ring(t, LinksOf(t), tp, q)
    modifies Objs(t)`next, Objs(t)`prev
    ensures q == [] ==> r == null && tp' == null && LinksOf(t) == old(LinksOf(t))
    ensures q != [] ==> r == t[q[0]] && Ring(t, LinksOf(t), tp', q[1..])
    ensures SameOutside(old(LinksOf(t)), LinksOf(t), q)
  {
    hide LinksOf;
    if EmptyProcQ(tp) {
      return null, tp;
    } else {
      assert tp.next == t[q[0]] && t[q[0]].id == q[0];
      WithoutOne(q, 0);
      assert Without(q, {q[0]}) == q[1..];
      r, tp' := OutProcQ(t, tp, tp.next, q);
    }
  }

  // ---- the process tree ----------------------------------------------------

  /** The tree links of a whole procTable at one moment. */
  datatype Kin = Kin(prnt: seq<Pcb?>, child: seq<Pcb?>, sib: seq<Pcb?>, prevsib: seq<Pcb?>)

  ghost function Prnts(t: seq<Pcb>): (r: seq<Pcb?>)
    reads Objs(t)`prnt
    ensures |r| == |t| && forall i :: 0 <= i < |t| ==> r[i] == t[i].prnt
  {
    if t == [] then [] else
      var u := t[..|t| - 1];
      assert t[|t| - 1] in Objs(t) && Objs(u) <= Objs(t);
      Prnts(u) + [t[|t| - 1].prnt]
  }

  ghost function Children(t: seq<Pcb>): (r: seq<Pcb?>)
    reads Objs(t)`child
    ensures |r| == |t| && forall i :: 0 <= i < |t| ==> r[i] == t[i].child
  {
    if t == [] then [] else
      var u := t[..|t| - 1];
      assert t[|t| - 1] in Objs(t) && Objs(u) <= Objs(t);
      Children(u) + [t[|t| - 1].child]
  }

  ghost function Sibs(t: seq<Pcb>): (r: seq<Pcb?>)
    reads Objs(t)`sib
    ensures |r| == |t| && forall i :: 0 <= i < |t| ==> r[i] == t[i].sib
  {
    if t == [] then [] else
      var u := t[..|t| - 1];
      assert t[|t| - 1] in Objs(t) && Objs(u) <= Objs(t);
      Sibs(u) + [t[|t| - 1].sib]
  }

  ghost function PrevSibs(t: seq<Pcb>): (r: seq<Pcb?>)
    reads Objs(t)`prevsib
    ensures |r| == |t| && forall i :: 0 <= i < |t| ==> r[i] == t[i].prevsib
  {
    if t == [] then [] else
      var u := t[..|t| - 1];
      assert t[|t| - 1] in Objs(t) && Objs(u) <= Objs(t);
      PrevSibs(u) + [t[|t| - 1].prevsib]
  }

  ghost function KinOf(t: seq<Pcb>): (k: Kin)
    reads Objs(t)`prnt, Objs(t)`child, Objs(t)`sib, Objs(t)`prevsib
    ensures KinFits(t, k)
    ensures forall i :: 0 <= i < |t| ==> k.prnt[i] == t[i].prnt && k.child[i] == t[i].child
    ensures forall i :: 0 <= i < |t| ==> k.sib[i] == t[i].sib && k.prevsib[i] == t[i].prevsib
  {
    Kin(Prnts(t), Children(t), Sibs(t), PrevSibs(t))
  }

  ghost predicate KinFits(t: seq<Pcb>, k: Kin) {
    |k.prnt| == |k.child| == |k.sib| == |k.prevsib| == |t|
  }

  /** The i-th child of p is linked to p and to its two neighbours. */
  ghost predicate KidAt(t: seq<Pcb>, k: Kin, p: Pid, ks: seq<Pid>, i: nat)
    requires KinFits(t, k) && p < |t| && Below(ks, |t|) && i < |ks|
  {
    && k.prnt[ks[i]] == t[p]
    && k.prevsib[ks[i]] == (if i == 0 then null else t[ks[i - 1]])
    && k.sib[ks[i]] == (if i == |ks| - 1 then null else t[ks[i + 1]])
  }

  /** The child list of p, from p_child along p_sib, is ks. */
  ghost predicate Brood(t: seq<Pcb>, k: Kin, p: Pid, ks: seq<Pid>)
    requires KinFits(t, k) && p < |t|
  {
    && Below(ks, |t|)
    && k.child[p] == (if ks == [] then null else t[ks[0]])
    && forall i :: 0 <= i < |ks| ==> KidAt(t, k, p, ks, i)
  }

  /** The tree links describe the forest f. */
  ghost predicate Families(t: seq<Pcb>, k: Kin, f: Forest) {
    && KinFits(t, k) && |f.kids| == |f.parent| == |t|
    && (forall p :: 0 <= p < |t| ==> Brood(t, k, p, f.kids[p]))
    && (forall c :: 0 <= c < |t| ==> (f.parent[c] == None <==> k.prnt[c] == null))
    && (forall c :: 0 <= c < |t| && f.parent[c].Some? ==> f.parent[c].value < |t| && k.prnt[c] == t[f.parent[c].value])
  }

  lemma BroodKept(t: seq<Pcb>, k: Kin, k': Kin, p: Pid, ks: seq<Pid>)
    requires KinFits(t, k) && KinFits(t, k') && p < |t| && Brood(t, k, p, ks)
    requires k'.child[p] == k.child[p]
    requires forall c :: c in ks && c < |t| ==>
      k'.prnt[c] == k.prnt[c] && k'.sib[c] == k.sib[c] && k'.prevsib[c] == k.prevsib[c]
    ensures Brood(t, k', p, ks)
  {
    forall i | 0 <= i < |ks| ensures KidAt(t, k', p, ks, i) {
      assert ks[i] in ks && KidAt(t, k, p, ks, i);
    }
  }

  function EmptyChild(p: Pcb): bool
    reads p
  {
    p.child == null
  }

  /** The child at position i, or NULL beyond either end. */
  ghost function KidRef(t: seq<Pcb>, ks: seq<Pid>, i: int): (r: Pcb?)
    requires Below(ks, |t|)
    ensures r != null ==> r in Objs(t)
  {
    if 0 <= i < |ks| then t[ks[i]] else null
  }

  /** How insertChild changes the links. */
  ghost predicate ChildInserted(t: seq<Pcb>, k: Kin, k': Kin, ks: seq<Pid>, prnt: Pid, p: Pid) {
    && KinFits(t, k) && KinFits(t, k') && prnt < |t| && p < |t| && Below(ks, |t|)
    && (forall x :: 0 <= x < |t| ==> k'.child[x] == if x == prnt then t[p] else k.child[x])
    && (forall x :: 0 <= x < |t| ==> k'.prnt[x] == if x == p then t[prnt] else k.prnt[x])
    && (forall x :: 0 <= x < |t| ==> k'.sib[x] == if ks != [] && x == p then t[ks[0]] else k.sib[x])
    && (forall x :: 0 <= x < |t| ==> k'.prevsib[x] == if ks != [] && x == ks[0] then t[p] else k.prevsib[x])
  }

  /** p becomes the first child of prnt, whose children so far are ks. */
  method InsertChild(ghost t: seq<Pcb>, prnt: Pcb, p: Pcb, ghost ks: seq<Pid>)
    requires IsTable(t) && InTable(t, prnt) && InTable(t, p) && prnt != p
    requires Below(ks, |t|) && prnt.child == KidRef(t, ks, 0)
    modifies Objs(t)`prnt, Objs(t)`child, Objs(t)`sib, Objs(t)`prevsib
    ensures ChildInserted(t, old(KinOf(t)), KinOf(t), ks, prnt.id, p.id)
  {
    hide KinOf;
    assert ks != [] ==> t[ks[0]].id == ks[0];
    if EmptyChild(prnt) {
      prnt.child := p;
      p.prnt := prnt;
    } else {
      prnt.child.prevsib := p;
      p.sib := prnt.child;
      p.prnt := prnt;
      prnt.child := p;
    }
  }

  /** insertChild makes p the first child exactly when p has no stale sibling links. */
  lemma InsertChildExact(t: seq<Pcb>, k: Kin, k': Kin, f: Forest, prnt: Pid, p: Pid)
    requires Sound(f) && Families(t, k, f) && prnt < |t| && p < |t| && prnt != p
    requires f.kids[p] == [] && f.parent[p] == None
    requires ChildInserted(t, k, k', f.kids[prnt], prnt, p)
    ensures Families(t, k', Insert(f, prnt, p)) <==>
      k.prevsib[p] == null && (f.kids[prnt] == [] ==> k.sib[p] == null)
  {
    var ks := f.kids[prnt];
    if k.prevsib[p] == null && (ks == [] ==> k.sib[p] == null) {
      InsertedBrood(t, k, k', f, prnt, p);
      InsertedOthers(t, k, k', f, prnt, p);
    } else {
      assert Brood(t, k, prnt, ks);
      assert ks != [] ==> ks[0] in ks;
      assert !KidAt(t, k', prnt, [p] + ks, 0);
      assert Insert(f, prnt, p).kids[prnt] == [p] + ks;
    }
  }

  lemma InsertedBrood(t: seq<Pcb>, k: Kin, k': Kin, f: Forest, prnt: Pid, p: Pid)
    requires Sound(f) && Families(t, k, f) && prnt < |t| && p < |t| && prnt != p
    requires f.kids[p] == [] && f.parent[p] == None
    requires ChildInserted(t, k, k', f.kids[prnt], prnt, p)
    requires k.prevsib[p] == null && (f.kids[prnt] == [] ==> k.sib[p] == null)
    ensures Brood(t, k', prnt, [p] + f.kids[prnt])
  {
    var ks := f.kids[prnt];
    var ls := [p] + ks;
    assert Brood(t, k, prnt, ks);
    assert p !in ks && (ks != [] ==> ks[0] in ks);
    forall i | 0 <= i < |ls| ensures KidAt(t, k', prnt, ls, i) {
      if i > 0 {
        assert KidAt(t, k, prnt, ks, i - 1) && ks[i - 1] in ks;
        assert ls[i] == ks[i - 1] && (i > 1 ==> ls[i - 1] == ks[i - 2]);
        assert NoDup(ks) && (i > 1 ==> ks[0] != ks[i - 1]);
      }
    }
  }

  lemma InsertedOthers(t: seq<Pcb>, k: Kin, k': Kin, f: Forest, prnt: Pid, p: Pid)
    requires Sound(f) && Families(t, k, f) && prnt < |t| && p < |t| && prnt != p
    requires f.kids[p] == [] && f.parent[p] == None
    requires ChildInserted(t, k, k', f.kids[prnt], prnt, p)
    requires Brood(t, k', prnt, [p] + f.kids[prnt])
    ensures Families(t, k', Insert(f, prnt, p))
  {
    var g := Insert(f, prnt, p);
    forall q | 0 <= q < |t| ensures Brood(t, k', q, g.kids[q]) {
      if q != prnt {
        assert Brood(t, k, q, f.kids[q]);
        assert f.kids[prnt] != [] ==> f.kids[prnt][0] in f.kids[prnt];
        BroodKept(t, k, k', q, f.kids[q]);
      }
    }
  }

  /** The neighbours of position i of ks, the children of q, are linked to each other. */
  ghost predicate GapClosed(t: seq<Pcb>, k: Kin, k': Kin, q: Pid, ks: seq<Pid>, i: nat) {
    && KinFits(t, k) && KinFits(t, k') && q < |t| && Below(ks, |t|) && i < |ks|
    && (forall x :: 0 <= x < |t| ==>
          k'.child[x] == if i == 0 && x == q then KidRef(t, ks, 1) else k.child[x])
    && (forall x :: 0 <= x < |t| ==>
          k'.sib[x] == if i > 0 && x == ks[i - 1] then KidRef(t, ks, i + 1) else k.sib[x])
    && (forall x :: 0 <= x < |t| ==>
          k'.prevsib[x] == if i < |ks| - 1 && x == ks[i + 1] then KidRef(t, ks, i - 1) else k.prevsib[x])
  }

  /** How outChild changes the links: position i has no parent, and the gap is closed. */
  ghost predicate ChildCut(t: seq<Pcb>, k: Kin, k': Kin, q: Pid, ks: seq<Pid>, i: nat) {
    && GapClosed(t, k, k', q, ks, i)
    && (forall x :: 0 <= x < |t| ==> k'.prnt[x] == if x == ks[i] then null else k.prnt[x])
  }

  method CloseGap(ghost t: seq<Pcb>, p: Pcb, ghost q: Pid, ghost ks: seq<Pid>, ghost i: nat)
    requires IsTable(t) && InTable(t, p) && q < |t| && p.prnt == t[q] && t[q] in Objs(t)
    requires Below(ks, |t|) && NoDup(ks) && i < |ks| && ks[i] == p.id
    requires p.sib == KidRef(t, ks, i + 1) && p.prevsib == KidRef(t, ks, i - 1)
    modifies Objs(t)`child, Objs(t)`sib, Objs(t)`prevsib
    ensures GapClosed(t, old(KinOf(t)), KinOf(t), q, ks, i)
  {
    hide KinOf;
    assert i > 0 ==> t[ks[i - 1]].id == ks[i - 1];
    assert i < |ks| - 1 ==> t[ks[i + 1]].id == ks[i + 1];
    assert t[q].id == q;
    if p.sib == null && p.prevsib == null {
      p.prnt.child := null;
    } else if p.sib == null {
      p.prevsib.sib := null;
    } else if p.prevsib == null {
      p.prnt.child := p.sib;
      p.sib.prevsib := null;
    } else {
      p.sib.prevsib := p.prevsib;
      p.prevsib.sib := p.sib;
    }
  }

  /** p, the child at position i of q's children ks, is cut off; NULL if it has no parent. */
  method OutChild(ghost t: seq<Pcb>, p: Pcb, ghost q: Pid, ghost ks: seq<Pid>, ghost i: nat) returns (r: Pcb?)
    requires IsTable(t) && InTable(t, p)
    requires p.prnt != null ==>
      && q < |t| && p.prnt == t[q] && t[q] in Objs(t) && Below(ks, |t|) && NoDup(ks) && i < |ks| && ks[i] == p.id
      && p.sib == KidRef(t, ks, i + 1) && p.prevsib == KidRef(t, ks, i - 1)
    modifies Objs(t)`prnt, Objs(t)`child, Objs(t)`sib, Objs(t)`prevsib
    ensures r == null <==> old(p.prnt) == null
    ensures r == null ==> KinOf(t) == old(KinOf(t))
    ensures r != null ==> r == p && ChildCut(t, old(KinOf(t)), KinOf(t), q, ks, i)
  {
    hide KinOf;
    if p.prnt == null {
      return null;
    }
    CloseGap(t, p, q, ks, i);
    p.prnt := null;
    return p;
  }

  /** What a forest says about the links of a child, as outChild wants to know it. */
  lemma ChildLinks(t: seq<Pcb>, k: Kin, f: Forest, p: Pid)
    requires Sound(f) && Families(t, k, f) && p < |t| && f.parent[p].Some?
    ensures var q := f.parent[p].value;
      && q < |t| && k.prnt[p] == t[q] && Below(f.kids[q], |t|) && NoDup(f.kids[q]) && p in f.kids[q]
      && k.sib[p] == KidRef(t, f.kids[q], Pos(f.kids[q], p) + 1)
      && k.prevsib[p] == KidRef(t, f.kids[q], Pos(f.kids[q], p) - 1)
  {
    var q := f.parent[p].value;
    assert Brood(t, k, q, f.kids[q]);
    assert KidAt(t, k, q, f.kids[q], Pos(f.kids[q], p));
  }

  /** A process has a parent link exactly when the forest gives it a parent. */
  lemma ParentLink(t: seq<Pcb>, k: Kin, f: Forest, p: Pid)
    requires Families(t, k, f) && p < |t|
    ensures p < |f.parent| && (k.prnt[p] == null <==> f.parent[p] == None)
  {
  }

  lemma CutFamilies(t: seq<Pcb>, k: Kin, k': Kin, f: Forest, p: Pid)
    requires Sound(f) && Families(t, k, f) && p < |t| && f.parent[p].Some?
    requires p in f.kids[f.parent[p].value]
    requires ChildCut(t, k, k', f.parent[p].value, f.kids[f.parent[p].value], Pos(f.kids[f.parent[p].value], p))
    ensures Families(t, k', Prune(f, {p}))
  {
    var q := f.parent[p].value;
    var ks := f.kids[q];
    var i := Pos(ks, p);
    var g := Prune(f, {p});
    forall x | 0 <= x < |t| ensures Brood(t, k', x, g.kids[x]) {
      assert Brood(t, k, x, f.kids[x]);
      if x == q {
        WithoutSkips(ks, i, |t|);
        CutBrood(t, k, k', q, ks, i, g.kids[q]);
      } else {
        WithoutNone(f.kids[x], {p});
        assert i > 0 ==> ks[i - 1] in ks;
        assert i < |ks| - 1 ==> ks[i + 1] in ks;
        BroodKept(t, k, k', x, f.kids[x]);
      }
    }
  }

  lemma CutBrood(t: seq<Pcb>, k: Kin, k': Kin, q: Pid, ks: seq<Pid>, i: nat, ls: seq<Pid>)
    requires NoDup(ks) && ChildCut(t, k, k', q, ks, i) && Brood(t, k, q, ks)
    requires Skips(ks, i, ls) && Below(ls, |t|)
    ensures Brood(t, k', q, ls)
  {
    forall j | 0 <= j < |ls| ensures KidAt(t, k', q, ls, j) {
      var m := if j < i then j else j + 1;
      assert KidAt(t, k, q, ks, m);
      assert ls[j] == SkipAt(ks, i, j) && ls[j] == ks[m] && ks[m] != ks[i];
      if j > 0 { assert ls[j - 1] == SkipAt(ks, i, j - 1); }
      if j < |ls| - 1 { assert ls[j + 1] == SkipAt(ks, i, j + 1); }
    }
    if ls != [] { assert ls[0] == SkipAt(ks, i, 0); }
  }

  /** The first child of p is cut off; NULL if there is none. */
  method RemoveChild(ghost t: seq<Pcb>, p: Pcb, ghost f: Forest) returns (r: Pcb?)
    requires IsTable(t) && InTable(t, p)
    requires Sound(f) && Families(t, KinOf(t), f)
    modifies Objs(t)`prnt, Objs(t)`child, Objs(t)`sib, Objs(t)`prevsib
    ensures f.kids[p.id] == [] ==> r == null && KinOf(t) == old(KinOf(t))
    ensures f.kids[p.id] != [] ==>
      r == t[Kid(f, p.id, 0)] && Families(t, KinOf(t), Prune(f, {Kid(f, p.id, 0)}))
  {
    hide KinOf, Sound, NoDup, Families, Brood, ChildCut;
    ghost var k := KinOf(t);
    FirstChildLinks(t, k, f, p.id);
    ghost var ks := f.kids[p.id];
    if EmptyChild(p) {
      return null;
    }
    r := OutChild(t, p.child, p.id, ks, 0);
    CutFamilies(t, k, KinOf(t), f, Kid(f, p.id, 0));
  }

  /** What a forest says about the first child of p, as removeChild wants to know it. */
  lemma FirstChildLinks(t: seq<Pcb>, k: Kin, f: Forest, p: Pid)
    requires IsTable(t) && Sound(f) && Families(t, k, f) && p < |t|
    ensures |f.kids| == |t| && Below(f.kids[p], |t|) && NoDup(f.kids[p]) && t[p] in Objs(t)
    ensures k.child[p] == KidRef(t, f.kids[p], 0)
    ensures f.kids[p] != [] ==>
      var c := Kid(f, p, 0);
      && c < |t| && k.prnt[c] == t[p] && InTable(t, t[c]) && Pos(f.kids[p], c) == 0
      && k.sib[c] == KidRef(t, f.kids[p], 1) && k.prevsib[c] == KidRef(t, f.kids[p], -1)
  {
    assert Brood(t, k, p, f.kids[p]);
    if f.kids[p] != [] {
      PosUnique(f.kids[p], Kid(f, p, 0), 0);
      ChildLinks(t, k, f, Kid(f, p, 0));
    }
  }

  // ---- the other fields ----------------------------------------------------

  ghost function SemAdds(t: seq<Pcb>): (r: seq<Addr>)
    reads Objs(t)`semAdd
    ensures |r| == |t| && forall i :: 0 <= i < |t| ==> r[i] == t[i].semAdd
  {
    if t == [] then [] else
      var u := t[..|t| - 1];
      assert t[|t| - 1] in Objs(t) && Objs(u) <= Objs(t);
      SemAdds(u) + [t[|t| - 1].semAdd]
  }

  ghost function Saved(t: seq<Pcb>): (r: seq<Cpu>)
    reads Objs(t)`s
    ensures |r| == |t| && forall i :: 0 <= i < |t| ==> r[i] == t[i].s
  {
    if t == [] then [] else
      var u := t[..|t| - 1];
      assert t[|t| - 1] in Objs(t) && Objs(u) <= Objs(t);
      Saved(u) + [t[|t| - 1].s]
  }

  // ---- the free list -------------------------------------------------------

  /** Every field cleanPcb resets is reset, apart from the queue links. */
  ghost predicate Clean(p: Pcb)
    reads p`child, p`sib, p`prevsib, p`prnt, p`semAdd
  {
    p.child == null && p.sib == null && p.prevsib == null && p.prnt == null && p.semAdd == NULL
  }

  method CleanPcb(ghost t: seq<Pcb>, p: Pcb)
    requires IsTable(t) && InTable(t, p)
    modifies p`next, p`prev, p`child, p`sib, p`prevsib, p`prnt, p`semAdd
    ensures Clean(p) && SameOutside(old(LinksOf(t)), LinksOf(t), [p.id])
  {
    p.next := null;
    p.prev := null;
    p.child := null;
    p.sib := null;
    p.prevsib := null;
    p.prnt := null;
    p.semAdd := NULL;
  }

  /** Resetting the links of a process without relatives is no change to the forest. */
  lemma CleanFamilies(t: seq<Pcb>, k: Kin, k': Kin, f: Forest, p: Pid)
    requires Sound(f) && Families(t, k, f) && p < |t| && f.kids[p] == [] && f.parent[p] == None
    requires KinFits(t, k')
    requires forall x :: 0 <= x < |t| && x != p ==>
      k'.prnt[x] == k.prnt[x] && k'.child[x] == k.child[x] && k'.sib[x] == k.sib[x] && k'.prevsib[x] == k.prevsib[x]
    requires k'.prnt[p] == null && k'.child[p] == null
    ensures Families(t, k', f)
  {
    forall x | 0 <= x < |t| ensures Brood(t, k', x, f.kids[x]) {
      assert Brood(t, k, x, f.kids[x]);
      if x != p {
        BroodKept(t, k, k', x, f.kids[x]);
      }
    }
  }

  /** The static data of pcb.c: procTable and the free list. */
  class PcbPool {
    const procTable: seq<Pcb>
    var pcbFree: Pcb?
    ghost var free: seq<Pid>

    ghost predicate Valid()
      reads this, Objs(procTable)`next, Objs(procTable)`prev
    {
      && IsTable(procTable) && NoDup(free)
      && Ring(procTable, LinksOf(procTable), pcbFree, free)
    }

    constructor (procTable: seq<Pcb>)
      ensures this.procTable == procTable
    {
      this.procTable := procTable;
      pcbFree, free := null, [];
    }

    /** p is cleaned and joins the free list at its end. */
    method FreePcb(p: Pcb)
      requires Valid() && InTable(procTable, p) && p.id !in free
      modifies this`pcbFree, this`free, Objs(procTable)`next, Objs(procTable)`prev
      modifies p`child, p`sib, p`prevsib, p`prnt, p`semAdd
      ensures Valid() && free == old(free) + [p.id] && Clean(p)
      ensures SameOutside(old(LinksOf(procTable)), LinksOf(procTable), free)
      ensures forall x :: 0 <= x < |procTable| && x != p.id && old(Clean(procTable[x])) ==> Clean(procTable[x])
    {
      hide Ring, SameOutside, LinksOf, NoDup, IsTable, Clean;
      ghost var m0 := LinksOf(procTable);
      CleanPcb(procTable, p);
      ghost var m1 := LinksOf(procTable);
      RingKept(procTable, m0, m1, [p.id], pcbFree, free);
      var tail := InsertProcQ(procTable, pcbFree, p, free);
      assert Clean(p);
      ghost var m2 := LinksOf(procTable);
      NoDupAppend(free, p.id);
      SameTrans(m0, m1, m2, [p.id], free + [p.id], free + [p.id]);
      pcbFree, free := tail, free + [p.id];
      assert Clean(p) && LinksOf(procTable) == m2;
    }

    ghost function FreeHead(): (r: set<Pcb>)
      requires Valid()
      reads this, Objs(procTable)`next, Objs(procTable)`prev
      ensures r <= Objs(procTable)
    {
      if free == [] then {} else {procTable[free[0]]}
    }

    /** The head of the free list, cleaned; NULL exactly when the list is empty. */
    method AllocPcb() returns (p: Pcb?)
      requires Valid()
      modifies this`pcbFree, this`free, Objs(procTable)`next, Objs(procTable)`prev
      modifies FreeHead()`child, FreeHead()`sib, FreeHead()`prevsib, FreeHead()`prnt, FreeHead()`semAdd
      ensures Valid() && SameOutside(old(LinksOf(procTable)), LinksOf(procTable), old(free))
      ensures old(free) == [] ==> p == null && free == [] && LinksOf(procTable) == old(LinksOf(procTable))
      ensures old(free) != [] ==>
        && p == procTable[old(free[0])] && free == old(free[1..]) && Clean(p)
    {
      hide Ring, SameOutside, NoDup;
      ghost var q, m0 := free, LinksOf(procTable);
      RingEmpty(procTable, m0, pcbFree, free);
      SameSelf(procTable, m0, q);
      if EmptyProcQ(pcbFree) {
        return null;
      }
      var tail;
      p, tail := RemoveProcQ(procTable, pcbFree, free);
      ghost var m1 := LinksOf(procTable);
      CleanPcb(procTable, p);
      ghost var m2 := LinksOf(procTable);
      HeadNotInTail(q);
      RingKept(procTable, m1, m2, [q[0]], tail, q[1..]);
      SameTrans(m0, m1, m2, q, [q[0]], q);
      pcbFree, free := tail, q[1..];
      assert LinksOf(procTable) == m2;
    }

    /** All of procTable is put on the free list, in order. */
    method InitPcbs()
      requires IsTable(procTable)
      modifies this`pcbFree, this`free, procTable
      ensures Valid() && free == seq(|procTable|, i requires 0 <= i < |procTable| => i)
      ensures forall i :: 0 <= i < |procTable| ==> Clean(procTable[i])
      ensures forall i :: 0 <= i < |procTable| ==> procTable[i].s == old(procTable[i].s)
    {
      hide Ring, SameOutside, LinksOf, Clean;
      pcbFree := null;
      free := [];
      EmptyRing(procTable, LinksOf(procTable));
      var i := 0;
      while i < |procTable|
        invariant 0 <= i <= |procTable| && Valid() && |free| == i
        invariant forall k :: 0 <= k < i ==> free[k] == k
        invariant forall k :: 0 <= k < i ==> Clean(procTable[k])
        invariant forall k :: 0 <= k < |procTable| ==> procTable[k].s == old(procTable[k].s)
      {
        FreePcb(procTable[i]);
        i := i + 1;
      }
    }
  }
}
