/** The Active Semaphore List: a sorted singly linked list of descriptors between
    two sentinels, each active descriptor owning a non-empty process queue. */
module Asls {
  import opened Seqs
  import opened Forest
  import opened Nucleus
  import opened Pcbs

  class Semd {
    var next: Semd?
    var semAdd: Addr
    var procQ: Pcb?

    constructor ()
    {
      next, procQ := null, null;
    }
  }

  // ---- the map an ASL stands for -------------------------------------------

  /** The addresses ascend from the sentinel 0 to the sentinel MAXINT. */
  ghost predicate Sorted(addrs: seq<Addr>) {
    && |addrs| >= 2 && addrs[0] == 0 && addrs[|addrs| - 1] == MAXINT
    && forall i, j :: 0 <= i < j < |addrs| ==> addrs[i] < addrs[j]
  }

  /** The i-th descriptor owns the queue of its semaphore. */
  ghost predicate Owns(t: seq<Pcb>, m: Links, addrs: seq<Addr>, tails: seq<Pcb?>,
                       blocked: map<Addr, seq<Pid>>, i: nat)
    requires i < |addrs| == |tails|
  {
    && addrs[i] in blocked && blocked[addrs[i]] != [] && NoDup(blocked[addrs[i]])
    && Ring(t, m, tails[i], blocked[addrs[i]])
  }

  /** No process is on two semaphore queues. */
  ghost predicate Apart(blocked: map<Addr, seq<Pid>>) {
    forall a, b, x {:trigger x in blocked[a], x in blocked[b]} ::
      a in blocked && b in blocked && x in blocked[a] && x in blocked[b] ==> a == b
  }

  /** p is on no semaphore queue. */
  ghost predicate NotQueued(blocked: map<Addr, seq<Pid>>, p: Pid) {
    forall b, x {:trigger x in blocked[b]} :: b in blocked && x in blocked[b] ==> x != p
  }

  /** The descriptors between the sentinels represent `blocked`. */
  ghost predicate Represents(t: seq<Pcb>, m: Links, addrs: seq<Addr>, tails: seq<Pcb?>,
                             blocked: map<Addr, seq<Pid>>) {
    && Sorted(addrs) && |tails| == |addrs| && |blocked| == |addrs| - 2
    && (forall i :: 0 < i < |addrs| - 1 ==> Owns(t, m, addrs, tails, blocked, i))
    && (forall a :: a in blocked ==> 0 < a < MAXINT && a in addrs)
    && Apart(blocked)
  }

  /** Changes to links outside all semaphore queues do not matter. */
  lemma RepresentsKept(t: seq<Pcb>, m: Links, m': Links, q: seq<Pid>, addrs: seq<Addr>, tails: seq<Pcb?>,
                       blocked: map<Addr, seq<Pid>>)
    requires Represents(t, m, addrs, tails, blocked) && SameOutside(m, m', q)
    requires forall a, x {:trigger x in blocked[a]} :: a in blocked && x in blocked[a] ==> x !in q
    ensures Represents(t, m', addrs, tails, blocked)
  {
    forall i | 0 < i < |addrs| - 1 ensures Owns(t, m', addrs, tails, blocked, i) {
      assert Owns(t, m, addrs, tails, blocked, i);
      RingKept(t, m, m', q, tails[i], blocked[addrs[i]]);
    }
  }

  /** What an inner descriptor owns. */
  lemma OwnsAt(t: seq<Pcb>, m: Links, addrs: seq<Addr>, tails: seq<Pcb?>, blocked: map<Addr, seq<Pid>>, i: nat)
    requires Represents(t, m, addrs, tails, blocked) && 0 < i < |addrs| - 1
    ensures |tails| == |addrs| && addrs[i] in blocked
    ensures blocked[addrs[i]] != [] && NoDup(blocked[addrs[i]]) && Ring(t, m, tails[i], blocked[addrs[i]])
  {
    assert Owns(t, m, addrs, tails, blocked, i);
  }

  /** A process joins the queue of an active semaphore. */
  lemma QueueJoined(t: seq<Pcb>, m: Links, m': Links, addrs: seq<Addr>, tails: seq<Pcb?>,
                    blocked: map<Addr, seq<Pid>>, i: nat, tp: Pcb?, p: Pid)
    requires Represents(t, m, addrs, tails, blocked) && 0 < i < |addrs| - 1 && NotQueued(blocked, p)
    requires addrs[i] in blocked && |tails| == |addrs|
    requires Ring(t, m', tp, blocked[addrs[i]] + [p]) && SameOutside(m, m', blocked[addrs[i]] + [p])
    ensures Represents(t, m', addrs, tails[i := tp], blocked[addrs[i] := blocked[addrs[i]] + [p]])
  {
    OwnsAt(t, m, addrs, tails, blocked, i);
    NoDupAppend(blocked[addrs[i]], p);
    var q: seq<Pid> := blocked[addrs[i]] + [p];
    QueueChanged(t, m, m', addrs, tails, blocked, i, tp, q, q);
  }

  /** Where a semaphore stands: it is active exactly when it is found. */
  lemma ActiveAt(t: seq<Pcb>, m: Links, addrs: seq<Addr>, tails: seq<Pcb?>,
                 blocked: map<Addr, seq<Pid>>, i: nat, a: Addr)
    requires Represents(t, m, addrs, tails, blocked) && 0 < a < MAXINT
    requires i + 1 < |addrs| && addrs[i] < a <= addrs[i + 1]
    ensures a in blocked <==> addrs[i + 1] == a
    ensures a in blocked ==> i + 1 < |addrs| - 1 && Owns(t, m, addrs, tails, blocked, i + 1)
  {
    if a in blocked {
      var j :| 0 <= j < |addrs| && addrs[j] == a;
      assert j == i + 1;
    }
    if addrs[i + 1] == a {
      assert Owns(t, m, addrs, tails, blocked, i + 1);
    }
  }

  function InsertAt<T>(s: seq<T>, k: nat, x: T): (r: seq<T>)
    requires k <= |s|
  {
    seq(|s| + 1, i requires 0 <= i <= |s| => if i < k then s[i] else if i == k then x else s[i - 1])
  }

  function RemoveAt<T>(s: seq<T>, k: nat): (r: seq<T>)
    requires k < |s|
  {
    seq(|s| - 1, i requires 0 <= i < |s| - 1 => if i < k then s[i] else s[i + 1])
  }

  lemma InsertAtAgain<T>(s: seq<T>, k: nat, x: T)
    requires k <= |s|
    ensures |InsertAt(s, k, x)| == |s| + 1 && InsertAt(s, k, x)[k] == x
  {
  }

  lemma InsertAtTwice<T>(s: seq<T>, k: nat, x: T, y: T)
    requires k <= |s|
    ensures |InsertAt(s, k, x)| == |s| + 1 && InsertAt(s, k, x)[k := y] == InsertAt(s, k, y)
  {
  }

  lemma NothingBlocked(t: seq<Pcb>, m: Links)
    ensures Represents(t, m, [0, MAXINT], [null, null], map[])
  {
  }

  lemma RepresentsSize(t: seq<Pcb>, m: Links, addrs: seq<Addr>, tails: seq<Pcb?>, blocked: map<Addr, seq<Pid>>)
    requires Represents(t, m, addrs, tails, blocked)
    ensures |tails| == |addrs| == |blocked| + 2 && Sorted(addrs)
  {
  }

  /** A process joins the queue of an active semaphore, or its queue changes otherwise. */
  lemma QueueChanged(t: seq<Pcb>, m: Links, m': Links, addrs: seq<Addr>, tails: seq<Pcb?>,
                     blocked: map<Addr, seq<Pid>>, i: nat, tp: Pcb?, q: seq<Pid>, touched: seq<Pid>)
    requires Represents(t, m, addrs, tails, blocked) && 0 < i < |addrs| - 1
    requires q != [] && NoDup(q) && Ring(t, m', tp, q) && SameOutside(m, m', touched)
    requires forall a, x {:trigger x in blocked[a]} ::
      a in blocked && a != addrs[i] && x in blocked[a] ==> x !in touched && x !in q
    ensures Represents(t, m', addrs, tails[i := tp], blocked[addrs[i] := q])
  {
    var b: map<Addr, seq<Pid>> := blocked[addrs[i] := q];
    var ts: seq<Pcb?> := tails[i := tp];
    assert Owns(t, m, addrs, tails, blocked, i);
    forall j | 0 < j < |addrs| - 1 ensures Owns(t, m', addrs, ts, b, j) {
      if j != i {
        assert Owns(t, m, addrs, tails, blocked, j);
        assert addrs[j] != addrs[i];
        RingKept(t, m, m', touched, tails[j], blocked[addrs[j]]);
      }
    }
    assert b.Keys == blocked.Keys;
    assert |b| == |b.Keys| && |blocked| == |blocked.Keys|;
  }

  /** A descriptor whose queue is not touched keeps it, wherever it moves in the list. */
  lemma OwnsMoved(t: seq<Pcb>, m: Links, m': Links, q: seq<Pid>, addrs: seq<Addr>, tails: seq<Pcb?>,
                  blocked: map<Addr, seq<Pid>>, i: nat,
                  addrs': seq<Addr>, tails': seq<Pcb?>, blocked': map<Addr, seq<Pid>>, j: nat)
    requires i < |addrs| == |tails| && j < |addrs'| == |tails'|
    requires addrs'[j] == addrs[i] && tails'[j] == tails[i]
    requires Owns(t, m, addrs, tails, blocked, i) && SameOutside(m, m', q)
    requires addrs[i] in blocked' && blocked'[addrs[i]] == blocked[addrs[i]]
    requires forall x :: x in blocked[addrs[i]] ==> x !in q
    ensures Owns(t, m', addrs', tails', blocked', j)
  {
    RingKept(t, m, m', q, tails[i], blocked[addrs[i]]);
  }

  /** A new descriptor with a one-process queue goes in after position i. */
  lemma DescriptorAdded(t: seq<Pcb>, m: Links, m': Links, addrs: seq<Addr>, tails: seq<Pcb?>,
                        blocked: map<Addr, seq<Pid>>, i: nat, a: Addr, tp: Pcb?, p: Pid)
    requires Represents(t, m, addrs, tails, blocked) && i + 1 < |addrs|
    requires addrs[i] < a < addrs[i + 1] && a !in blocked
    requires Ring(t, m', tp, [p]) && SameOutside(m, m', [p])
    requires NotQueued(blocked, p)
    ensures Represents(t, m', InsertAt(addrs, i + 1, a), InsertAt(tails, i + 1, tp), blocked[a := [p]])
  {
    var as_: seq<Addr> := InsertAt(addrs, i + 1, a);
    var ts: seq<Pcb?> := InsertAt(tails, i + 1, tp);
    var b: map<Addr, seq<Pid>> := blocked[a := [p]];
    SortedInsert(addrs, i, a);
    ApartAdded(blocked, a, p);
    AllOwn(t, m, m', addrs, tails, blocked, i, a, tp, p, as_, ts, b);
    assert |as_| == |addrs| + 1 == |ts| && |b| == |blocked| + 1;
    forall c | c in b ensures 0 < c < MAXINT && c in as_ {
      if c != a { assert c in blocked; }
    }
  }

  lemma AllOwn(t: seq<Pcb>, m: Links, m': Links, addrs: seq<Addr>, tails: seq<Pcb?>,
               blocked: map<Addr, seq<Pid>>, i: nat, a: Addr, tp: Pcb?, p: Pid,
               addrs': seq<Addr>, tails': seq<Pcb?>, blocked': map<Addr, seq<Pid>>)
    requires Represents(t, m, addrs, tails, blocked) && i + 1 < |addrs| && a !in blocked
    requires Ring(t, m', tp, [p]) && SameOutside(m, m', [p])
    requires NotQueued(blocked, p)
    requires addrs' == InsertAt(addrs, i + 1, a) && tails' == InsertAt(tails, i + 1, tp)
    requires blocked' == blocked[a := [p]]
    ensures forall j :: 0 < j < |addrs'| - 1 ==> Owns(t, m', addrs', tails', blocked', j)
  {
    forall j | 0 < j < |addrs'| - 1 ensures Owns(t, m', addrs', tails', blocked', j) {
      if j != i + 1 {
        OwnsBeside(t, m, m', addrs, tails, blocked, i, a, tp, p, j);
      }
    }
  }

  lemma OwnsBeside(t: seq<Pcb>, m: Links, m': Links, addrs: seq<Addr>, tails: seq<Pcb?>,
                   blocked: map<Addr, seq<Pid>>, i: nat, a: Addr, tp: Pcb?, p: Pid, j: nat)
    requires Represents(t, m, addrs, tails, blocked) && i + 1 < |addrs| && a !in blocked
    requires SameOutside(m, m', [p])
    requires NotQueued(blocked, p)
    requires 0 < j < |addrs| && j != i + 1
    ensures Owns(t, m', InsertAt(addrs, i + 1, a), InsertAt(tails, i + 1, tp), blocked[a := [p]], j)
  {
    var l := if j <= i then j else j - 1;
    assert Owns(t, m, addrs, tails, blocked, l);
    OwnsMoved(t, m, m', [p], addrs, tails, blocked, l,
              InsertAt(addrs, i + 1, a), InsertAt(tails, i + 1, tp), blocked[a := [p]], j);
  }

  lemma ApartAdded(blocked: map<Addr, seq<Pid>>, a: Addr, p: Pid)
    requires Apart(blocked) && a !in blocked
    requires NotQueued(blocked, p)
    ensures Apart(blocked[a := [p]])
  {
    var b: map<Addr, seq<Pid>> := blocked[a := [p]];
    forall c, d, x {:trigger x in b[c], x in b[d]} | c in b && d in b && x in b[c] && x in b[d] ensures c == d {
      assert c != a ==> x in blocked[c];
      assert d != a ==> x in blocked[d];
    }
  }

  lemma SortedInsert(addrs: seq<Addr>, i: nat, a: Addr)
    requires Sorted(addrs) && i + 1 < |addrs| && addrs[i] < a < addrs[i + 1]
    ensures Sorted(InsertAt(addrs, i + 1, a))
    ensures a in InsertAt(addrs, i + 1, a)
    ensures forall c :: c in addrs ==> c in InsertAt(addrs, i + 1, a)
  {
    var as_: seq<Addr> := InsertAt(addrs, i + 1, a);
    assert as_[i + 1] == a;
    forall c | c in addrs ensures c in as_ {
      var l :| 0 <= l < |addrs| && addrs[l] == c;
      assert as_[if l <= i then l else l + 1] == c;
    }
  }

  /** The descriptor at position i, and with it the queue, is gone. */
  lemma DescriptorRemoved(t: seq<Pcb>, m: Links, m': Links, addrs: seq<Addr>, tails: seq<Pcb?>,
                          blocked: map<Addr, seq<Pid>>, i: nat)
    requires Represents(t, m, addrs, tails, blocked) && 0 < i < |addrs| - 1
    requires addrs[i] in blocked && SameOutside(m, m', blocked[addrs[i]])
    ensures Represents(t, m', RemoveAt(addrs, i), RemoveAt(tails, i), blocked - {addrs[i]})
  {
    var as_: seq<Addr> := RemoveAt(addrs, i);
    var ts: seq<Pcb?> := RemoveAt(tails, i);
    var b: map<Addr, seq<Pid>> := blocked - {addrs[i]};
    SortedRemove(addrs, i);
    forall j | 0 < j < |as_| - 1 ensures Owns(t, m', as_, ts, b, j) {
      OwnsLeft(t, m, m', addrs, tails, blocked, i, j);
    }
    assert b.Keys == blocked.Keys - {addrs[i]};
    assert |b| == |b.Keys| && |blocked| == |blocked.Keys|;
  }

  lemma OwnsLeft(t: seq<Pcb>, m: Links, m': Links, addrs: seq<Addr>, tails: seq<Pcb?>,
                 blocked: map<Addr, seq<Pid>>, i: nat, j: nat)
    requires Represents(t, m, addrs, tails, blocked) && 0 < i < |addrs| - 1
    requires addrs[i] in blocked && SameOutside(m, m', blocked[addrs[i]])
    requires 0 < j < |addrs| - 2
    ensures Owns(t, m', RemoveAt(addrs, i), RemoveAt(tails, i), blocked - {addrs[i]}, j)
  {
    var l := if j < i then j else j + 1;
    assert Owns(t, m, addrs, tails, blocked, l) && addrs[l] != addrs[i];
    OwnsMoved(t, m, m', blocked[addrs[i]], addrs, tails, blocked, l,
              RemoveAt(addrs, i), RemoveAt(tails, i), blocked - {addrs[i]}, j);
  }

  lemma SortedRemove(addrs: seq<Addr>, i: nat)
    requires Sorted(addrs) && 0 < i < |addrs| - 1
    ensures Sorted(RemoveAt(addrs, i))
    ensures forall c :: c in addrs && c != addrs[i] ==> c in RemoveAt(addrs, i)
  {
    var as_: seq<Addr> := RemoveAt(addrs, i);
    forall c | c in addrs && c != addrs[i] ensures c in as_ {
      var l :| 0 <= l < |addrs| && addrs[l] == c;
      assert as_[if l < i then l else l - 1] == c;
    }
  }

  // ---- the list in memory ---------------------------------------------------

  class Asl {
    const procTable: seq<Pcb>
    const semdTable: seq<Semd>
    ghost const nodes: set<Semd>          // the members of semdTable
    var head: Semd?      // semd_h
    var freeHead: Semd?  // semdFree_h
    ghost var act: seq<Semd>              // the list, sentinels included
    ghost var idle: seq<Semd>             // the free list
    ghost var addrs: seq<Addr>            // s_semAdd along the list
    ghost var tails: seq<Pcb?>            // s_procQ along the list
    ghost var blocked: map<Addr, seq<Pid>>

    ghost predicate NextAt(s: seq<Semd>, i: nat, last: Semd?)
      requires i < |s|
      reads {s[i]}`next
    {
      s[i].next == if i + 1 < |s| then s[i + 1] else last
    }

    /** act and idle are disjoint chains of descriptors from semdTable, `limbo` of
        which are in neither. */
    ghost predicate Chained(limbo: nat)
      reads this`act, this`idle, this`head, this`freeHead, nodes`next
    {
      && head == (if act == [] then null else act[0])
      && freeHead == (if idle == [] then null else idle[0])
      && (forall i :: 0 <= i < |act| ==> act[i] in nodes)
      && (forall i :: 0 <= i < |idle| ==> idle[i] in nodes)
      && (forall i :: 0 <= i < |act| ==> NextAt(act, i, null))
      && (forall i :: 0 <= i < |idle| ==> NextAt(idle, i, null))
      && NoDup(act) && NoDup(idle)
      && (forall i, j :: 0 <= i < |act| && 0 <= j < |idle| ==> act[i] != idle[j])
      && |act| + |idle| + limbo == |semdTable|
    }

    ghost predicate Labelled()
      reads this`act, this`addrs, this`tails, nodes`semAdd, nodes`procQ
    {
      && |addrs| == |tails| == |act|
      && (forall i :: 0 <= i < |act| ==> act[i] in nodes)
      && (forall i :: 0 <= i < |act| ==> act[i].semAdd == addrs[i])
      && (forall i :: 0 <= i < |act| ==> act[i].procQ == tails[i])
      && (tails != [] ==> tails[|tails| - 1] == null)
    }

    /** The list is well formed; what it represents depends on the pcb links too. */
    ghost predicate Listed()
      reads this`act, this`idle, this`head, this`freeHead, this`addrs, this`tails
      reads nodes`next, nodes`semAdd, nodes`procQ
    {
      Chained(0) && Labelled() && IsTable(procTable) && |semdTable| == |procTable| + 2
    }

    ghost predicate Valid()
      reads this, nodes`next, nodes`semAdd, nodes`procQ
      reads Objs(procTable)`next, Objs(procTable)`prev
    {
      Listed() && Represents(procTable, LinksOf(procTable), addrs, tails, blocked)
    }

    constructor (procTable: seq<Pcb>, semdTable: seq<Semd>)
      ensures this.procTable == procTable && this.semdTable == semdTable
      ensures nodes == set s | s in semdTable
    {
      nodes := set s | s in semdTable;
      this.procTable := procTable;
      this.semdTable := semdTable;
      head, freeHead := null, null;
      act, idle, addrs, tails, blocked := [], [], [], [], map[];
    }

    /** semdTable has room for every process and the two sentinels. */
    ghost predicate Fresh() {
      && |semdTable| == |procTable| + 2
      && (forall i, j :: 0 <= i < j < |semdTable| ==> semdTable[i] != semdTable[j])
      && nodes == set s | s in semdTable
    }

    /** All descriptors go on the free list, and then two of them become the sentinels. */
    method InitASL()
      requires IsTable(procTable) && Fresh()
      modifies this, nodes
      ensures Valid() && blocked == map[]
      ensures LinksOf(procTable) == old(LinksOf(procTable))
    {
      hide LinksOf;
      FillFree();
      PlaceSentinels();
    }

    method FillFree()
      requires forall i, j :: 0 <= i < j < |semdTable| ==> semdTable[i] != semdTable[j]
      requires nodes == set s | s in semdTable
      modifies this, nodes
      ensures act == [] && |idle| == |semdTable| && Chained(0)
      ensures LinksOf(procTable) == old(LinksOf(procTable))
    {
      hide LinksOf;
      head, freeHead := null, null;
      act, idle := [], [];
      var i := 0;
      while i < |semdTable|
        invariant 0 <= i <= |semdTable| && act == [] && |idle| == i && Chained(|semdTable| - i)
        invariant forall k :: 0 <= k < i ==> idle[k] == semdTable[i - 1 - k]
        invariant LinksOf(procTable) == old(LinksOf(procTable))
      {
        FreeSemd(semdTable[i], |semdTable| - i - 1);
        i := i + 1;
      }
    }

    method PlaceSentinels()
      requires act == [] && |idle| == |semdTable| == |procTable| + 2 && Chained(0) && IsTable(procTable)
      modifies this, nodes
      ensures Valid() && blocked == map[]
      ensures LinksOf(procTable) == old(LinksOf(procTable))
    {
      hide LinksOf, IsTable, Represents;
      NothingBlocked(procTable, LinksOf(procTable));
      var first := AllocateSemd(0, 0);
      head := first;
      act := [first];
      assert NextAt(act, 0, null);
      PlaceLast(first);
      addrs, tails, blocked := [0, MAXINT], [null, null], map[];
    }

    method PlaceLast(first: Semd)
      requires act == [first] && idle != [] && Chained(0) && head == first
      modifies this, nodes
      ensures |act| == 2 && act[0] == first && Chained(0)
      ensures act[1].semAdd == MAXINT && act[1].procQ == null
      ensures first.semAdd == old(first.semAdd) && first.procQ == old(first.procQ)
      ensures LinksOf(procTable) == old(LinksOf(procTable))
    {
      hide LinksOf;
      var last := AllocateSemd(MAXINT, 0);
      assert first != last;
      head.next := last;
      last.next := null;
      act := [first, last];
      forall j | 0 <= j < |idle| ensures NextAt(idle, j, null) {
        assert idle[j] != first && idle[j] != last;
      }
    }

    /** The descriptor before the place of a, found by walking from the head. */
    method SearchSemd(a: Addr) returns (parent: Semd, ghost i: nat)
      requires Listed() && Sorted(addrs) && 0 < a <= MAXINT
      ensures i + 1 < |act| && parent == act[i] && addrs[i] < a <= addrs[i + 1]
      ensures parent.next == act[i + 1]
      ensures LinksOf(procTable) == old(LinksOf(procTable))
    {
      parent := head;
      i := 0;
      assert NextAt(act, 0, null);
      while parent.next.semAdd < a
        invariant 0 <= i < |act| - 1 && parent == act[i] && addrs[i] < a
        invariant parent.next == act[i + 1]
        decreases |act| - i
      {
        parent := parent.next;
        i := i + 1;
        assert NextAt(act, i, null);
      }
    }

    method HeadBlocked(a: Addr) returns (p: Pcb?)
      requires Valid() && 0 < a < MAXINT
      ensures p == if a in blocked && blocked[a] != [] && blocked[a][0] < |procTable|
                   then procTable[blocked[a][0]] else null
      ensures a in blocked ==> blocked[a] != [] && blocked[a][0] < |procTable|
    {
      var parent, i := SearchSemd(a);
      ActiveAt(procTable, LinksOf(procTable), addrs, tails, blocked, i, a);
      if parent.next.semAdd != a {
        return null;
      } else if EmptyProcQ(parent.next.procQ) {
        return null;
      } else {
        return HeadProcQ(parent.next.procQ);
      }
    }

    // ---- descriptors ---------------------------------------------------------

    method CleanSemd(p: Semd)
      modifies p
      ensures p.next == null && p.semAdd == NULL && p.procQ == null
    {
      p.next := null;
      p.semAdd := NULL;
      p.procQ := null;
    }

    /** A descriptor from neither list is pushed on the free list. */
    method FreeSemd(p: Semd, ghost limbo: nat)
      requires Chained(limbo + 1) && p in nodes && p !in act && p !in idle
      modifies this`freeHead, this`idle, p
      ensures Chained(limbo) && idle == [p] + old(idle)
      ensures LinksOf(procTable) == old(LinksOf(procTable))
    {
      CleanSemd(p);
      p.next := freeHead;
      freeHead := p;
      idle := [p] + idle;
      forall i | 0 <= i < |act| ensures act[i] in nodes && NextAt(act, i, null) {
        assert old(NextAt(act, i, null));
      }
      forall i | 0 <= i < |idle| ensures idle[i] in nodes && NextAt(idle, i, null) {
        if i > 0 { assert old(NextAt(idle, i - 1, null)) && idle[i] == old(idle[i - 1]); }
      }
    }

    /** A descriptor is popped off the free list and labelled; NULL if there is none. */
    method AllocateSemd(a: Addr, ghost limbo: nat) returns (r: Semd?)
      requires Chained(limbo)
      modifies this`freeHead, this`idle
      modifies if idle == [] then {} else {idle[0]}
      ensures LinksOf(procTable) == old(LinksOf(procTable))
      ensures old(idle) == [] ==> r == null && Chained(limbo) && idle == []
      ensures old(idle) != [] ==>
        && r == old(idle[0]) && idle == old(idle[1..]) && Chained(limbo + 1)
        && r.semAdd == a && r.procQ == null && r.next == null
    {
      if freeHead == null {
        return null;
      }
      assert NextAt(idle, 0, null);
      r := freeHead;
      if freeHead.next == null {
        freeHead := null;
      } else {
        freeHead := freeHead.next;
      }
      CleanSemd(r);
      r.semAdd := a;
      idle := idle[1..];
      forall i | 0 <= i < |act| ensures NextAt(act, i, null) {
        assert old(NextAt(act, i, null)) && act[i] != r;
      }
      forall i | 0 <= i < |idle| ensures NextAt(idle, i, null) {
        assert old(NextAt(idle, i + 1, null)) && idle[i] == old(idle[i + 1]) && idle[i] != r;
      }
    }

    // ---- linking descriptors -------------------------------------------------

    /** A descriptor from neither list is linked in after position i. */
    method LinkAfter(parent: Semd, r: Semd, ghost i: nat)
      requires Chained(1) && i + 1 < |act| && parent == act[i]
      requires r in nodes && r !in act && r !in idle
      modifies this`act, parent`next, r`next
      ensures Chained(0) && act == InsertAt(old(act), i + 1, r)
      ensures LinksOf(procTable) == old(LinksOf(procTable))
    {
      assert NextAt(act, i, null);
      r.next := parent.next;
      parent.next := r;
      act := InsertAt(act, i + 1, r);
      forall j | 0 <= j < |act| ensures act[j] in nodes && NextAt(act, j, null) {
        if j < i {
          assert old(NextAt(act, j, null)) && old(act[j]) != parent;
        } else if j > i + 1 {
          assert old(NextAt(act, j - 1, null)) && old(act[j - 1]) != parent;
        }
      }
      forall j | 0 <= j < |idle| ensures NextAt(idle, j, null) {
        assert old(NextAt(idle, j, null));
      }
    }

    /** A descriptor for a, with no queue yet, goes in after position i; NULL if
        no descriptor is free. */
    method NewDescriptor(parent: Semd, ghost i: nat, a: Addr) returns (r: Semd?)
      requires Listed() && i + 1 < |act| && parent == act[i]
      modifies this`freeHead, this`idle, this`act, this`addrs, this`tails, nodes
      ensures Listed() && LinksOf(procTable) == old(LinksOf(procTable))
      ensures r == null <==> |old(act)| == |semdTable|
      ensures r == null ==> act == old(act) && addrs == old(addrs) && tails == old(tails)
      ensures r != null ==>
        && act == InsertAt(old(act), i + 1, r) && addrs == InsertAt(old(addrs), i + 1, a)
        && tails == InsertAt(old(tails), i + 1, null) && r.procQ == null
    {
      hide IsTable, LinksOf;
      r := AllocateSemd(a, 0);
      if r == null {
        return;
      }
      LinkAfter(parent, r, i);
      addrs := InsertAt(addrs, i + 1, a);
      tails := InsertAt(tails, i + 1, null);
    }

    /** The i-th descriptor gets a new tail pointer; the ASL now stands for b. */
    method SetTail(semd: Semd, ghost i: nat, tail: Pcb?, ghost b: map<Addr, seq<Pid>>)
      requires Listed() && i < |act| - 1 && semd == act[i]
      modifies semd`procQ, this`tails, this`blocked
      ensures Listed() && tails == old(tails)[i := tail] && blocked == b
      ensures LinksOf(procTable) == old(LinksOf(procTable))
    {
      semd.procQ := tail;
      tails := tails[i := tail];
      blocked := b;
      forall j | 0 <= j < |act| ensures NextAt(act, j, null) {
        assert old(NextAt(act, j, null));
      }
      forall j | 0 <= j < |idle| ensures NextAt(idle, j, null) {
        assert old(NextAt(idle, j, null));
      }
    }

    /** The i-th descriptor is taken out of the list and freed; the ASL now stands for b. */
    method DropDescriptor(parent: Semd, ghost i: nat, ghost b: map<Addr, seq<Pid>>)
      requires Listed() && i + 2 < |act| && parent == act[i]
      modifies this`freeHead, this`idle, this`act, this`addrs, this`tails, this`blocked, nodes
      ensures blocked == b
      ensures Listed() && LinksOf(procTable) == old(LinksOf(procTable))
      ensures act == RemoveAt(old(act), i + 1) && addrs == RemoveAt(old(addrs), i + 1)
      ensures tails == RemoveAt(old(tails), i + 1)
    {
      hide IsTable, LinksOf;
      var semd := parent.next;
      Unlink(parent, i);
      addrs := RemoveAt(addrs, i + 1);
      tails := RemoveAt(tails, i + 1);
      blocked := b;
      FreeSemd(semd, 0);
    }

    method Unlink(parent: Semd, ghost i: nat)
      requires Chained(0) && i + 2 < |act| && parent == act[i]
      modifies this`act, parent`next
      ensures old(act[i + 1]) !in act && old(act[i + 1]) !in idle && old(parent.next) == old(act[i + 1])
      ensures Chained(1) && act == RemoveAt(old(act), i + 1)
      ensures LinksOf(procTable) == old(LinksOf(procTable))
    {
      assert NextAt(act, i, null) && NextAt(act, i + 1, null);
      parent.next := parent.next.next;
      act := RemoveAt(act, i + 1);
      forall j | 0 <= j < |act| ensures NextAt(act, j, null) {
        if j < i {
          assert old(NextAt(act, j, null)) && old(act[j]) != parent;
        } else if j > i {
          assert old(NextAt(act, j + 1, null)) && old(act[j + 1]) != parent;
        }
      }
      forall j | 0 <= j < |idle| ensures NextAt(idle, j, null) {
        assert old(NextAt(idle, j, null));
      }
    }

    // ---- the ASL operations --------------------------------------------------

    /** p joins the queue of a; TRUE, and no change, exactly when a needs a new
        descriptor and none is free. */
    method InsertBlocked(a: Addr, p: Pcb) returns (full: bool)
      requires Valid() && 0 < a < MAXINT && InTable(procTable, p)
      requires NotQueued(blocked, p.id)
      modifies this`freeHead, this`idle, this`act, this`addrs, this`tails, this`blocked, nodes
      modifies Objs(procTable)`next, Objs(procTable)`prev, p`semAdd
      ensures Valid()
      ensures full <==> a !in old(blocked) && |old(blocked)| == |procTable|
      ensures full ==> blocked == old(blocked) && p.semAdd == old(p.semAdd)
      ensures full ==> LinksOf(procTable) == old(LinksOf(procTable))
      ensures !full ==> blocked == old(blocked)[a := QueueAt(old(blocked), a) + [p.id]] && p.semAdd == a
      ensures SameOutside(old(LinksOf(procTable)), LinksOf(procTable), QueueAt(old(blocked), a) + [p.id])
    {
      hide Ring, SameOutside, Chained, Represents, NoDup, LinksOf, IsTable, NotQueued;
      ghost var m, q := LinksOf(procTable), QueueAt(blocked, a);
      SameSelf(procTable, m, q + [p.id]);
      RepresentsSize(procTable, m, addrs, tails, blocked);
      var parent, i := SearchSemd(a);
      ActiveAt(procTable, m, addrs, tails, blocked, i, a);
      if parent.next.semAdd == a {
        JoinQueue(parent.next, i + 1, p);
      } else {
        full := OpenQueue(parent, i, a, p);
        if full {
          return true;
        }
        assert [] + [p.id] == [p.id] == q + [p.id];
      }
      ghost var m' := LinksOf(procTable);
      p.semAdd := a;
      assert LinksOf(procTable) == m';
      return false;
    }

    /** p goes to the end of the i-th descriptor's queue. */
    method JoinQueue(semd: Semd, ghost i: nat, p: Pcb)
      requires Valid() && 0 < i < |act| - 1 && semd == act[i] && InTable(procTable, p)
      requires NotQueued(blocked, p.id)
      modifies semd`procQ, this`tails, this`blocked, Objs(procTable)`next, Objs(procTable)`prev
      ensures Valid() && addrs[i] in old(blocked)
      ensures blocked == old(blocked)[addrs[i] := old(blocked)[addrs[i]] + [p.id]]
      ensures SameOutside(old(LinksOf(procTable)), LinksOf(procTable), old(blocked)[addrs[i]] + [p.id])
    {
      hide Ring, SameOutside, Chained, Represents, NoDup, LinksOf, IsTable;
      ghost var m, tails0 := LinksOf(procTable), tails;
      OwnsAt(procTable, m, addrs, tails, blocked, i);
      ghost var q := blocked[addrs[i]];
      var tail := InsertProcQ(procTable, semd.procQ, p, q);
      QueueJoined(procTable, m, LinksOf(procTable), addrs, tails0, blocked, i, tail, p.id);
      SetTail(semd, i, tail, blocked[addrs[i] := q + [p.id]]);
    }

    /** A new descriptor for a goes in after position i, with p alone on its queue. */
    method OpenQueue(parent: Semd, ghost i: nat, a: Addr, p: Pcb) returns (full: bool)
      requires Valid() && i + 1 < |act| && parent == act[i] && InTable(procTable, p)
      requires addrs[i] < a < addrs[i + 1] && a !in blocked
      requires NotQueued(blocked, p.id)
      modifies this`freeHead, this`idle, this`act, this`addrs, this`tails, this`blocked, nodes
      modifies Objs(procTable)`next, Objs(procTable)`prev
      ensures Valid() && (full <==> |old(blocked)| == |procTable|)
      ensures full ==> blocked == old(blocked) && LinksOf(procTable) == old(LinksOf(procTable))
      ensures !full ==> blocked == old(blocked)[a := [p.id]]
      ensures SameOutside(old(LinksOf(procTable)), LinksOf(procTable), [p.id])
    {
      hide SameOutside, Chained, Represents, NoDup, LinksOf, IsTable, InsertAt, NotQueued;
      ghost var m, addrs0, tails0 := LinksOf(procTable), addrs, tails;
      SameSelf(procTable, m, [p.id]);
      RepresentsSize(procTable, m, addrs, tails, blocked);
      var r := NewDescriptor(parent, i, a);
      if r == null {
        return true;
      }
      InsertAtAgain(old(act), i + 1, r);
      InsertAtTwice(tails0, i + 1, null, null);
      EmptyRing(procTable, LinksOf(procTable));
      var tail := InsertProcQ(procTable, r.procQ, p, []);
      ghost var m' := LinksOf(procTable);
      assert [] + [p.id] == [p.id];
      DescriptorAdded(procTable, m, m', addrs0, tails0, blocked, i, a, tail, p.id);
      InsertAtTwice(tails0, i + 1, null, tail);
      SetTail(r, i + 1, tail, blocked[a := [p.id]]);
      return false;
    }

    /** p leaves the queue of the semaphore in its p_semAdd; NULL if that
        semaphore is not active or p is not queued there. The guard is the
        code's: it looks at the element after the head. For a process that is
        not blocked the search ends at the upper sentinel, whose address NULL
        is, and the guard goes through its empty s_procQ: `fault`. */
    method OutBlocked(p: Pcb) returns (r: Pcb?, fault: bool)
      requires Valid() && InTable(procTable, p) && 0 < p.semAdd <= MAXINT
      modifies this`freeHead, this`idle, this`act, this`addrs, this`tails, this`blocked, nodes
      modifies Objs(procTable)`next, Objs(procTable)`prev
      ensures Valid()
      ensures fault <==> p.semAdd == NULL
      ensures r == if p.id in QueueAt(old(blocked), p.semAdd) then p else null
      ensures p.semAdd !in old(blocked) ==> blocked == old(blocked)
      ensures p.semAdd in old(blocked) ==>
        (old(blocked)[p.semAdd] != [] && blocked == Nucleus.OutBlocked(old(blocked), p.semAdd, p.id))
      ensures SameOutside(old(LinksOf(procTable)), LinksOf(procTable), QueueAt(old(blocked), p.semAdd))
    {
      hide Ring, SameOutside, Chained, Represents, NoDup, LinksOf, IsTable;
      ghost var m, a := LinksOf(procTable), p.semAdd;
      SameSelf(procTable, m, QueueAt(blocked, a));
      RepresentsSize(procTable, m, addrs, tails, blocked);
      fault := false;
      var parent, i := SearchSemd(p.semAdd);
      AtSentinel(procTable, m, addrs, tails, blocked, i, a);
      if parent.next.semAdd != p.semAdd {
        return null, false;
      }
      if parent.next.procQ == null {
        return null, true;
      }
      r := OutActive(parent, i, p);
    }

    /** The semaphore of p is active, with its descriptor at position i + 1. */
    method OutActive(parent: Semd, ghost i: nat, p: Pcb) returns (r: Pcb?)
      requires Valid() && InTable(procTable, p) && 0 < p.semAdd < MAXINT
      requires i + 2 < |act| && parent == act[i] && parent.next == act[i + 1] && addrs[i + 1] == p.semAdd
      modifies this`freeHead, this`idle, this`act, this`addrs, this`tails, this`blocked, nodes
      modifies Objs(procTable)`next, Objs(procTable)`prev
      ensures Valid() && p.semAdd in old(blocked) && old(blocked)[p.semAdd] != []
      ensures r == if p.id in old(blocked)[p.semAdd] then p else null
      ensures blocked == Nucleus.OutBlocked(old(blocked), p.semAdd, p.id)
      ensures SameOutside(old(LinksOf(procTable)), LinksOf(procTable), old(blocked)[p.semAdd])
    {
      hide Ring, SameOutside, Chained, Represents, NoDup, LinksOf, IsTable;
      ghost var m := LinksOf(procTable);
      RepresentsSize(procTable, m, addrs, tails, blocked);
      OwnsAt(procTable, m, addrs, tails, blocked, i + 1);
      ghost var q := blocked[p.semAdd];
      GuardIs(procTable, m, parent.next.procQ, q);
      if HeadProcQ(parent.next.procQ.next) == p {
        AfterHeadIn(procTable, q, p);
        r := DropQueue(parent, i, p);
      } else {
        r := LeaveQueue(parent.next, i + 1, p);
      }
    }

    /** The i-th descriptor is freed after p has left its queue. */
    method DropQueue(parent: Semd, ghost i: nat, p: Pcb) returns (r: Pcb?)
      requires Valid() && i + 2 < |act| && parent == act[i] && parent.next == act[i + 1] && InTable(procTable, p)
      requires addrs[i + 1] in blocked && p.id in blocked[addrs[i + 1]]
      modifies this`freeHead, this`idle, this`act, this`addrs, this`tails, this`blocked, nodes
      modifies Objs(procTable)`next, Objs(procTable)`prev
      ensures Valid() && r == p && blocked == old(blocked) - {old(addrs[i + 1])}
      ensures SameOutside(old(LinksOf(procTable)), LinksOf(procTable), old(blocked)[old(addrs[i + 1])])
    {
      hide Ring, SameOutside, Chained, Represents, NoDup, LinksOf, IsTable;
      ghost var m, addrs0, tails0 := LinksOf(procTable), addrs, tails;
      RepresentsSize(procTable, m, addrs, tails, blocked);
      OwnsAt(procTable, m, addrs, tails, blocked, i + 1);
      ghost var q := blocked[addrs[i + 1]];
      var tail;
      r, tail := OutProcQ(procTable, parent.next.procQ, p, q);
      ghost var m' := LinksOf(procTable);
      DropDescriptor(parent, i, blocked - {addrs0[i + 1]});
      DescriptorRemoved(procTable, m, m', addrs0, tails0, old(blocked), i + 1);
    }

    /** p leaves the i-th descriptor's queue, which keeps its descriptor. */
    method LeaveQueue(semd: Semd, ghost i: nat, p: Pcb) returns (r: Pcb?)
      requires Valid() && 0 < i < |act| - 1 && semd == act[i] && InTable(procTable, p)
      requires addrs[i] in blocked && blocked[addrs[i]] != [] && !AfterHead(blocked[addrs[i]], p.id)
      modifies semd`procQ, this`tails, this`blocked, Objs(procTable)`next, Objs(procTable)`prev
      ensures Valid() && r == if p.id in old(blocked)[addrs[i]] then p else null
      ensures blocked == old(blocked)[addrs[i] := Without(old(blocked)[addrs[i]], {p.id})]
      ensures SameOutside(old(LinksOf(procTable)), LinksOf(procTable), old(blocked)[addrs[i]])
    {
      hide Ring, SameOutside, Chained, Represents, NoDup, LinksOf, IsTable;
      ghost var m, tails0 := LinksOf(procTable), tails;
      OwnsAt(procTable, m, addrs, tails, blocked, i);
      ghost var q := blocked[addrs[i]];
      var tail;
      r, tail := OutProcQ(procTable, semd.procQ, p, q);
      QueueLeft(procTable, m, LinksOf(procTable), addrs, tails0, blocked, i, tail, p.id);
      SetTail(semd, i, tail, blocked[addrs[i] := Without(q, {p.id})]);
    }

    /** The longest waiter of a leaves its queue; NULL if a is not active. It is
        never the second of its queue, so the descriptor is freed exactly when
        the queue becomes empty. */
    method RemoveBlocked(a: Addr) returns (r: Pcb?)
      requires Valid() && 0 < a < MAXINT
      requires forall x :: x in QueueAt(blocked, a) && x < |procTable| ==> procTable[x].semAdd == a
      modifies this`freeHead, this`idle, this`act, this`addrs, this`tails, this`blocked, nodes
      modifies Objs(procTable)`next, Objs(procTable)`prev
      ensures Valid()
      ensures a !in old(blocked) ==> r == null && blocked == old(blocked)
      ensures a in old(blocked) ==>
        (old(blocked)[a] != [] && old(blocked)[a][0] < |procTable| && r == procTable[old(blocked)[a][0]]
         && blocked == SetQueue(old(blocked), a, old(blocked)[a][1..]))
      ensures SameOutside(old(LinksOf(procTable)), LinksOf(procTable), QueueAt(old(blocked), a))
    {
      hide Ring, SameOutside, Chained, Represents, LinksOf, IsTable;
      ghost var m := LinksOf(procTable);
      SameSelf(procTable, m, QueueAt(blocked, a));
      RepresentsSize(procTable, m, addrs, tails, blocked);
      var parent, i := SearchSemd(a);
      ActiveAt(procTable, m, addrs, tails, blocked, i, a);
      if parent.next.semAdd != a {
        return null;
      }
      ghost var q := blocked[a];
      OwnsAt(procTable, m, addrs, tails, blocked, i + 1);
      GuardIs(procTable, m, parent.next.procQ, q);
      HeadRemoved(blocked, a);
      var fault;
      r, fault := OutBlocked(HeadProcQ(parent.next.procQ));
    }
  }

  /** The search for a stops at a descriptor that owns a queue, unless a is not
      active or is the upper sentinel's own address. */
  lemma AtSentinel(t: seq<Pcb>, m: Links, addrs: seq<Addr>, tails: seq<Pcb?>,
                   blocked: map<Addr, seq<Pid>>, i: nat, a: Addr)
    requires Represents(t, m, addrs, tails, blocked) && 0 < a <= MAXINT
    requires i + 1 < |addrs| && addrs[i] < a <= addrs[i + 1]
    ensures a == MAXINT <==> i + 1 == |addrs| - 1 && addrs[i + 1] == a
    ensures a == MAXINT ==> a !in blocked
    ensures a < MAXINT ==> (a in blocked <==> addrs[i + 1] == a)
    ensures a < MAXINT && addrs[i + 1] == a ==> i + 2 < |addrs| && tails[i + 1] != null
  {
    if a < MAXINT {
      ActiveAt(t, m, addrs, tails, blocked, i, a);
      if addrs[i + 1] == a {
        OwnsAt(t, m, addrs, tails, blocked, i + 1);
      }
    }
  }

  /** Taking out the head is always what the comment of outBlocked promises. */
  lemma HeadRemoved(blocked: map<Addr, seq<Pid>>, a: Addr)
    requires a in blocked && blocked[a] != [] && NoDup(blocked[a])
    ensures blocked[a][0] in blocked[a]
    ensures Nucleus.OutBlocked(blocked, a, blocked[a][0]) == SetQueue(blocked, a, blocked[a][1..])
  {
    WithoutOne(blocked[a], 0);
    assert blocked[a][..0] + blocked[a][1..] == blocked[a][1..];
    assert |blocked[a]| >= 2 ==> blocked[a][0] != blocked[a][1];
  }

  /** What the guard of outBlocked reads: the head, and the element after it. */
  lemma GuardIs(t: seq<Pcb>, m: Links, tp: Pcb?, q: seq<Pid>)
    requires IsTable(t) && Ring(t, m, tp, q) && q != []
    ensures q[0] < |t| && tp == t[q[|q| - 1]] && q[|q| - 1] < |t|
    ensures m.next[q[|q| - 1]] == t[q[0]] && InTable(t, t[q[0]]) && t[q[0]].id == q[0]
    ensures var second := if |q| == 1 then q[0] else q[1];
      second < |t| && m.next[q[0]] == t[second] && t[second].id == second
  {
    RingNeighbours(t, m, tp, q, 0);
    RingNeighbours(t, m, tp, q, |q| - 1);
  }

  lemma AfterHeadIn(t: seq<Pcb>, q: seq<Pid>, p: Pcb)
    requires q != [] && AfterHead(q, p.id)
    ensures p.id in q
  {
  }

  /** A process other than the one after the head leaves its queue. */
  lemma QueueLeft(t: seq<Pcb>, m: Links, m': Links, addrs: seq<Addr>, tails: seq<Pcb?>,
                  blocked: map<Addr, seq<Pid>>, i: nat, tp: Pcb?, p: Pid)
    requires Represents(t, m, addrs, tails, blocked) && 0 < i < |addrs| - 1
    requires addrs[i] in blocked && |tails| == |addrs| && blocked[addrs[i]] != [] && !AfterHead(blocked[addrs[i]], p)
    requires Ring(t, m', tp, Without(blocked[addrs[i]], {p})) && SameOutside(m, m', blocked[addrs[i]])
    ensures Represents(t, m', addrs, tails[i := tp], blocked[addrs[i] := Without(blocked[addrs[i]], {p})])
  {
    OwnsAt(t, m, addrs, tails, blocked, i);
    var q: seq<Pid> := blocked[addrs[i]];
    WithoutNoDup(q, {p});
    if p in q {
      WithoutOne(q, Pos(q, p));
    } else {
      WithoutNone(q, {p});
    }
    QueueChanged(t, m, m', addrs, tails, blocked, i, tp, Without(q, {p}), q);
  }
}
