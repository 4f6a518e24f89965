/** Queues of thread ids: duplicates, order-preserving selection, and positions. */
module Queues {

  ghost predicate NoDup(q: seq<nat>) {
    forall i, j :: 0 <= i < j < |q| ==> q[i] != q[j]
  }

  function Elems(q: seq<nat>): set<nat> {
    set x | x in q
  }

  /** The members of `q` that lie in `m`, in queue order. */
  function Keep(q: seq<nat>, m: set<nat>): seq<nat> {
    if q == [] then []
    else
      var n := |q| - 1;
      Keep(q[..n], m) + if q[n] in m then [q[n]] else []
  }

  /** The members of `q` that lie outside `m`, in queue order. */
  function Without(q: seq<nat>, m: set<nat>): seq<nat> {
    if q == [] then []
    else
      var n := |q| - 1;
      Without(q[..n], m) + if q[n] in m then [] else [q[n]]
  }

  function PopFront(q: seq<nat>): seq<nat> {
    if q == [] then [] else q[1..]
  }

  lemma {:induction false} KeepMembers(q: seq<nat>, m: set<nat>)
    ensures forall x :: x in Keep(q, m) <==> x in q && x in m
    ensures |Keep(q, m)| <= |q|
  {
    if q != [] {
      var n := |q| - 1;
      KeepMembers(q[..n], m);
      assert q == q[..n] + [q[n]];
    }
  }

  lemma {:induction false} WithoutMembers(q: seq<nat>, m: set<nat>)
    ensures forall x :: x in Without(q, m) <==> x in q && x !in m
    ensures |Without(q, m)| <= |q|
  {
    if q != [] {
      var n := |q| - 1;
      WithoutMembers(q[..n], m);
      assert q == q[..n] + [q[n]];
    }
  }

  lemma {:induction false} KeepNoDup(q: seq<nat>, m: set<nat>)
    requires NoDup(q)
    ensures NoDup(Keep(q, m))
  {
    if q != [] {
      var n := |q| - 1;
      KeepNoDup(q[..n], m);
      KeepMembers(q[..n], m);
      assert forall i :: 0 <= i < n ==> q[..n][i] == q[i];
    }
  }

  lemma {:induction false} WithoutNoDup(q: seq<nat>, m: set<nat>)
    requires NoDup(q)
    ensures NoDup(Without(q, m))
  {
    if q != [] {
      var n := |q| - 1;
      WithoutNoDup(q[..n], m);
      WithoutMembers(q[..n], m);
      assert forall i :: 0 <= i < n ==> q[..n][i] == q[i];
    }
  }

  /** Appending disjoint duplicate-free queues gives a duplicate-free queue. */
  lemma AppendNoDup(p: seq<nat>, q: seq<nat>)
    requires NoDup(p) && NoDup(q)
    requires forall x :: x in p ==> x !in q
    ensures NoDup(p + q)
    ensures forall x :: x in p + q <==> x in p || x in q
  {
    forall i, j | 0 <= i < j < |p + q| ensures (p + q)[i] != (p + q)[j] {
      if i < |p| <= j {
        assert p[i] in p && q[j - |p|] in q;
      }
    }
  }

  lemma PopNoDup(q: seq<nat>)
    requires NoDup(q)
    ensures NoDup(PopFront(q))
    ensures forall x :: x in PopFront(q) <==> x in q && x != q[0]
  {
    if q != [] {
      assert q == [q[0]] + q[1..];
      assert forall i :: 0 <= i < |q| - 1 ==> q[1..][i] == q[i + 1];
    }
  }

  /** Selection distributes over concatenation. */
  lemma {:induction false} WithoutAppend(p: seq<nat>, q: seq<nat>, m: set<nat>)
    ensures Without(p + q, m) == Without(p, m) + Without(q, m)
    ensures Keep(p + q, m) == Keep(p, m) + Keep(q, m)
  {
    if q == [] {
      assert p + q == p;
    } else {
      var n := |q| - 1;
      WithoutAppend(p, q[..n], m);
      assert (p + q)[..|p + q| - 1] == p + q[..n];
    }
  }

  /** A set that misses the queue selects nothing and removes nothing. */
  lemma {:induction false} KeepNothing(q: seq<nat>, m: set<nat>)
    requires forall x :: x in q ==> x !in m
    ensures Keep(q, m) == [] && Without(q, m) == q
  {
    if q != [] {
      var n := |q| - 1;
      assert q == q[..n] + [q[n]];
      KeepNothing(q[..n], m);
    }
  }

  /** Selection depends only on the members of the queue. */
  lemma {:induction false} SelectSame(q: seq<nat>, m: set<nat>, n: set<nat>)
    requires forall x :: x in q ==> (x in m <==> x in n)
    ensures Keep(q, m) == Keep(q, n) && Without(q, m) == Without(q, n)
  {
    if q != [] {
      var k := |q| - 1;
      assert q == q[..k] + [q[k]];
      SelectSame(q[..k], m, n);
    }
  }

  lemma SelectSnoc(q: seq<nat>, x: nat, m: set<nat>)
    ensures Keep(q + [x], m) == Keep(q, m) + if x in m then [x] else []
    ensures Without(q + [x], m) == Without(q, m) + if x in m then [] else [x]
  {
    assert (q + [x])[..|q|] == q;
  }

  /** Selecting one element that occurs once: what is left keeps its order. */
  lemma SelectOne(p: seq<nat>, x: nat, r: seq<nat>, m: set<nat>)
    requires x in m && (forall y :: y in p ==> y !in m) && (forall y :: y in r ==> y !in m)
    ensures Without(p + [x] + r, m) == p + r
    ensures Keep(p + [x] + r, m) == [x]
  {
    KeepNothing(p, m);
    KeepNothing(r, m);
    SelectSnoc(p, x, m);
    var q := p + [x];
    assert Without(q, m) == p && Keep(q, m) == [x];
    WithoutAppend(q, r, m);
  }

  lemma NoDupSplit(p: seq<nat>, q: seq<nat>)
    requires NoDup(p + q)
    ensures forall x :: x in p ==> x !in q
    ensures NoDup(p) && NoDup(q)
  {
    forall i, j | 0 <= i < |p| && 0 <= j < |q| ensures p[i] != q[j] {
      assert (p + q)[i] == p[i] && (p + q)[|p| + j] == q[j];
    }
    assert forall i :: 0 <= i < |p| ==> (p + q)[i] == p[i];
    assert forall i :: 0 <= i < |q| ==> (p + q)[|p| + i] == q[i];
  }

  /** The first selected element is the first element that is selected. */
  lemma SelectFirst(p: seq<nat>, x: nat, r: seq<nat>, m: set<nat>)
    requires x in m && forall y :: y in p ==> y !in m
    ensures Keep(p + [x] + r, m) != [] && Keep(p + [x] + r, m)[0] == x
  {
    KeepNothing(p, m);
    SelectSnoc(p, x, m);
    WithoutAppend(p + [x], r, m);
  }

  /** Either nothing is selected, or the queue splits at the first selected element. */
  lemma {:induction false} SplitAtFirst(q: seq<nat>, m: set<nat>)
    returns (p: seq<nat>, r: seq<nat>)
    ensures Keep(q, m) == [] ==> forall y :: y in q ==> y !in m
    ensures Keep(q, m) != [] ==>
      q == p + [Keep(q, m)[0]] + r && Keep(q, m)[0] in m && forall y :: y in p ==> y !in m
  {
    p, r := [], [];
    if q != [] {
      var n := |q| - 1;
      assert q == q[..n] + [q[n]];
      p, r := SplitAtFirst(q[..n], m);
      if Keep(q[..n], m) == [] {
        p, r := q[..n], [];
        assert q[n] in m ==> q == p + [q[n]] + r;
      } else {
        r := r + [q[n]];
        assert q == p + [Keep(q, m)[0]] + r;
      }
    }
  }

  /** A listing of a set: an unordered set is walked in an unspecified order. */
  predicate Enumerates(order: seq<nat>, m: set<nat>) {
    |order| == |m| && Elems(order) == m
  }

  lemma {:induction false} EnumerationNoDup(q: seq<nat>, m: set<nat>)
    requires Elems(q) == m && |q| == |m|
    ensures NoDup(q)
  {
    if q != [] {
      var p, x := q[..|q| - 1], q[|q| - 1];
      assert q == p + [x];
      ElemsSnoc(p, x);
      ElemsBound(p);
      assert x in Elems(p) ==> Elems(p) + {x} == Elems(p);
      EnumerationNoDup(p, Elems(p));
      assert x !in p;
      AppendNoDup(p, [x]);
    }
  }

  lemma {:induction false} ElemsBound(q: seq<nat>)
    ensures |Elems(q)| <= |q|
  {
    if q == [] {
      assert Elems(q) == {};
    } else {
      var n := |q| - 1;
      ElemsBound(q[..n]);
      assert Elems(q) == Elems(q[..n]) + {q[n]} by { assert q == q[..n] + [q[n]]; }
    }
  }

  lemma ElemsSnoc(q: seq<nat>, x: nat)
    ensures Elems(q + [x]) == Elems(q) + {x}
  {
  }
}
