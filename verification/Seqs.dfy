/** Duplicate-free sequences of process numbers, and deletion of a set of them.
    Queues and sibling lists are such sequences; every removal the nucleus
    performs is a `Without`. */
module Seqs {

  datatype Option<+T> = None | Some(value: T)

  ghost predicate NoDup<T>(q: seq<T>) {
    forall i, j :: 0 <= i < j < |q| ==> q[i] != q[j]
  }

  function Elems(q: seq<nat>): set<nat> {
    set x | x in q
  }

  /** q with the members of `out` deleted, the others in their old order. */
  function Without(q: seq<nat>, out: set<nat>): (r: seq<nat>)
    ensures |r| <= |q|
    ensures forall x :: x in r <==> x in q && x !in out
  {
    if q == [] then []
    else if q[0] in out then Without(q[1..], out)
    else [q[0]] + Without(q[1..], out)
  }

  /** The position of the first x in q. */
  function Pos(q: seq<nat>, x: nat): (k: nat)
    requires x in q
    ensures k < |q| && q[k] == x && x !in q[..k]
  {
    if q[0] == x then 0 else 1 + Pos(q[1..], x)
  }

  /** x stands before y in q. */
  ghost predicate Before(q: seq<nat>, x: nat, y: nat) {
    x in q && y in q && Pos(q, x) < Pos(q, y)
  }

  lemma {:induction false} PosUnique(q: seq<nat>, x: nat, k: nat)
    requires NoDup(q) && k < |q| && q[k] == x
    ensures x in q && Pos(q, x) == k
  {
    assert q[Pos(q, x)] == q[k];
  }

  lemma NoDupAppend(q: seq<nat>, x: nat)
    requires NoDup(q) && x !in q
    ensures NoDup(q + [x])
  {
  }

  lemma HeadNotInTail(q: seq<nat>)
    requires NoDup(q) && q != []
    ensures q[0] !in q[1..] && NoDup(q[1..])
  {
  }

  lemma NoDupConcat(q: seq<nat>, r: seq<nat>)
    requires NoDup(q) && NoDup(r) && forall x :: x in q ==> x !in r
    ensures NoDup(q + r)
  {
    var s := q + r;
    forall i, j | 0 <= i < j < |s| ensures s[i] != s[j] {
      if i < |q| && |q| <= j {
        assert s[i] in q && s[j] in r;
      }
    }
  }

  lemma NoDupApart(q: seq<nat>, r: seq<nat>)
    requires NoDup(q + r)
    ensures forall x :: x in q ==> x !in r
  {
    forall x | x in q ensures x !in r {
      assert (q + r)[Pos(q, x)] == x;
      forall k | 0 <= k < |r| ensures r[k] != x {
        assert (q + r)[|q| + k] == r[k];
      }
    }
  }

  lemma {:induction false} WithoutConcat(q: seq<nat>, r: seq<nat>, out: set<nat>)
    ensures Without(q + r, out) == Without(q, out) + Without(r, out)
  {
    if q == [] {
      assert q + r == r;
    } else {
      assert (q + r)[1..] == q[1..] + r;
      WithoutConcat(q[1..], r, out);
    }
  }

  lemma {:induction false} WithoutNone(q: seq<nat>, out: set<nat>)
    requires forall x :: x in q ==> x !in out
    ensures Without(q, out) == q
  {
    if q != [] {
      WithoutNone(q[1..], out);
    }
  }

  lemma {:induction false} WithoutAll(q: seq<nat>, out: set<nat>)
    requires forall x :: x in q ==> x in out
    ensures Without(q, out) == []
  {
    if q != [] {
      WithoutAll(q[1..], out);
    }
  }

  lemma {:induction false} WithoutTwice(q: seq<nat>, a: set<nat>, b: set<nat>)
    ensures Without(Without(q, a), b) == Without(q, a + b)
  {
    if q != [] {
      WithoutTwice(q[1..], a, b);
      if q[0] !in a {
        assert Without(q, a)[1..] == Without(q[1..], a);
      }
    }
  }

  lemma {:induction false} WithoutNoDup(q: seq<nat>, out: set<nat>)
    requires NoDup(q)
    ensures NoDup(Without(q, out))
  {
    if q != [] {
      WithoutNoDup(q[1..], out);
      assert q[0] !in q[1..];
    }
  }

  /** Deleting one member of a duplicate-free sequence takes out its position. */
  lemma {:induction false} WithoutOne(q: seq<nat>, k: nat)
    requires NoDup(q) && k < |q|
    ensures Without(q, {q[k]}) == q[..k] + q[k + 1..]
    ensures |Without(q, {q[k]})| == |q| - 1
  {
    if k == 0 {
      assert q[0] !in q[1..];
      WithoutNone(q[1..], {q[0]});
    } else {
      assert q[1..][k - 1] == q[k];
      WithoutOne(q[1..], k - 1);
      assert q[..k] + q[k + 1..] == [q[0]] + (q[1..][..k - 1] + q[1..][k..]);
    }
  }

  /** Deleting others never moves a survivor back. */
  lemma {:induction false} PosWithout(q: seq<nat>, out: set<nat>, x: nat)
    requires x in q && x !in out
    ensures x in Without(q, out) && Pos(Without(q, out), x) <= Pos(q, x)
  {
    if q[0] != x {
      PosWithout(q[1..], out, x);
    }
  }

  /** Deleting others keeps the order of the survivors. */
  lemma {:induction false} WithoutKeepsOrder(q: seq<nat>, out: set<nat>, x: nat, y: nat)
    requires NoDup(q) && Before(q, x, y) && x !in out && y !in out
    ensures Before(Without(q, out), x, y)
  {
    if q[0] == x {
      assert y in q[1..];
    } else {
      assert x in q[1..] && y in q[1..];
      WithoutKeepsOrder(q[1..], out, x, y);
    }
  }

  lemma {:induction false} PosAppend(q: seq<nat>, r: seq<nat>, x: nat)
    requires x in q
    ensures x in q + r && Pos(q + r, x) == Pos(q, x)
  {
    if q[0] != x {
      assert (q + r)[1..] == q[1..] + r;
      PosAppend(q[1..], r, x);
    }
  }

  /** A duplicate-free sequence of numbers below n has at most n members. */
  lemma {:induction false} NoDupBound(q: seq<nat>, n: nat)
    requires NoDup(q) && forall x :: x in q ==> x < n
    ensures |q| <= n
    decreases n
  {
    assert q != [] ==> q[0] in q;
    if n > 0 {
      var r := Without(q, {n - 1});
      WithoutNoDup(q, {n - 1});
      NoDupBound(r, n - 1);
      if n - 1 in q {
        WithoutOne(q, Pos(q, n - 1));
      } else {
        WithoutNone(q, {n - 1});
      }
    }
  }
}
