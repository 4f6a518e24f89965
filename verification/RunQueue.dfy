/** The run queue: an intrusive doubly linked list with one element per thread, and membership
    read off the links.  It implements the sequence the scheduler works with. */
module RunQueueList {
  import opened Queues

  const NULL: int := -1

  function After(q: seq<nat>, i: nat): int {
    if i + 1 < |q| then q[i + 1] else NULL
  }

  ghost predicate LinkOk(q: seq<nat>, prev: seq<int>, next: seq<int>, i: nat)
    requires i < |q|
  {
    q[i] < |next| == |prev| && next[q[i]] == After(q, i) && (i > 0 ==> prev[q[i]] == q[i - 1])
  }

  /** The links describe the queue `q`.  The `prev` link of the head is not cleared when the
      element before it is popped, so nothing is said about it. */
  ghost predicate Linked(q: seq<nat>, head: int, tail: int, prev: seq<int>, next: seq<int>) {
    && |prev| == |next| && NoDup(q)
    && (if q == [] then head == NULL && tail == NULL else head == q[0] && tail == q[|q| - 1])
    && (forall i {:trigger LinkOk(q, prev, next, i)} :: 0 <= i < |q| ==> LinkOk(q, prev, next, i))
    && (forall t: nat :: t < |next| && t !in q ==> prev[t] == NULL && next[t] == NULL)
  }

  /** push_back on the links. */
  lemma LinkBack(q: seq<nat>, head: int, tail: int, prev: seq<int>, next: seq<int>, t: nat)
    requires Linked(q, head, tail, prev, next) && t < |next| && t !in q
    ensures q == [] ==> Linked([t], t, t, prev, next)
    ensures q != [] ==> 0 <= tail < |next| && Linked(q + [t], head, t, prev[t := tail], next[tail := t])
  {
    if q == [] {
      assert LinkOk([t], prev, next, 0);
    } else {
      var q1 := q + [t];
      var n := |q| - 1;
      AppendNoDup(q, [t]);
      assert LinkOk(q, prev, next, n);
      var prev1, next1 := prev[t := tail], next[tail := t];
      forall i | 0 <= i < |q1| ensures LinkOk(q1, prev1, next1, i) {
        if i < |q| {
          assert LinkOk(q, prev, next, i) && q[i] in q;
          assert i < n ==> q[i] != q[n];
        }
      }
    }
  }

  /** pop_front on the links. */
  lemma UnlinkFront(q: seq<nat>, head: int, tail: int, prev: seq<int>, next: seq<int>)
    requires Linked(q, head, tail, prev, next) && q != []
    ensures 0 <= head < |next|
    ensures Linked(q[1..], next[head], if next[head] == NULL then NULL else tail,
                   prev[head := NULL], next[head := NULL])
  {
    var r := q[1..];
    assert LinkOk(q, prev, next, 0);
    PopNoDup(q);
    var prev1, next1 := prev[head := NULL], next[head := NULL];
    forall i | 0 <= i < |r| ensures LinkOk(r, prev1, next1, i) {
      assert LinkOk(q, prev, next, i + 1) && r[i] == q[i + 1] && q[i + 1] != q[0];
    }
    forall t: nat | t < |next| && t !in r ensures prev1[t] == NULL && next1[t] == NULL {
      if t != q[0] { assert t !in q; }
    }
  }

  /** in() on the links: a set link, or being the only element, means membership. */
  lemma InByLinks(q: seq<nat>, head: int, tail: int, prev: seq<int>, next: seq<int>, t: nat)
    requires Linked(q, head, tail, prev, next) && t < |next|
    ensures prev[t] != NULL || next[t] != NULL || (head == t && tail == t) <==> t in q
  {
    if t in q {
      var i :| 0 <= i < |q| && q[i] == t;
      assert LinkOk(q, prev, next, i);
    } else if q != [] {
      assert q[0] in q;
    }
  }

  class RunQueue {
    var head: int
    var tail: int
    var prev: seq<int>
    var next: seq<int>
    var numElements: nat
    ghost var contents: seq<nat>

    ghost predicate Valid()
      reads this
    {
      Linked(contents, head, tail, prev, next) && numElements == |contents|
    }

    /** One element for each possible thread. */
    constructor (threads: nat)
      ensures Valid() && contents == [] && |next| == threads
    {
      head, tail := NULL, NULL;
      prev := seq(threads, _ => NULL);
      next := seq(threads, _ => NULL);
      numElements := 0;
      contents := [];
    }

    method PushBack(t: nat)
      requires Valid() && t < |next| && t !in contents
      modifies this
      ensures Valid() && contents == old(contents) + [t] && |next| == old(|next|)
    {
      LinkBack(contents, head, tail, prev, next, t);
      if head == NULL {
        head, tail := t, t;
        contents := [t];
      } else {
        prev := prev[t := tail];
        next := next[tail := t];
        tail := t;
        contents := contents + [t];
      }
      numElements := numElements + 1;
    }

    method PopFront()
      requires Valid() && contents != []
      modifies this
      ensures Valid() && contents == old(contents)[1..] && |next| == old(|next|)
    {
      UnlinkFront(contents, head, tail, prev, next);
      var elem := head;
      head := next[elem];
      prev := prev[elem := NULL];
      next := next[elem := NULL];
      if head == NULL {
        tail := NULL;
      }
      numElements := numElements - 1;
      contents := contents[1..];
    }

    method In(t: nat) returns (b: bool)
      requires Valid() && t < |next|
      ensures b <==> t in contents
    {
      InByLinks(contents, head, tail, prev, next, t);
      if prev[t] != NULL || next[t] != NULL {
        b := true;
      } else {
        b := head == t && tail == t;
      }
    }
  }
}
