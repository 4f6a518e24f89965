/** What a signal or broadcast of the TOND-sync mode has done when it returns, whatever the other
    threads do meanwhile. */
module TondSignals {
  import opened Queues
  import opened TondSync

  /** The waiters on the channel. */
  function On(s: State, c: nat): set<nat>
    requires s.Sized()
  {
    set u | u in s.waitq && u < |s.pc| && s.waits[u].chan == c
  }

  predicate Sweeping(pc: Pc, c: nat, all: bool) {
    (pc.Sweep? || pc.Erase?) && pc.kind == OnChan(c, all)
  }

  ghost predicate SameRecords(s0: State, s: State, q: seq<nat>) {
    forall u :: u in q ==> u < |s.waits| && u < |s0.waits| && s.waits[u] == s0.waits[u]
  }

  /** Thread t is in the middle of a signal that it started in `s0`: it has dealt with `done`. */
  ghost predicate Mid(s0: State, s: State, t: nat, c: nat, all: bool, done: seq<nat>, rest: seq<nat>)
    requires s0.Sized()
  {
    && s.Sized() && |s.pc| == |s0.pc| && t < |s.pc| && Sweeping(s.pc[t], c, all)
    && NoDup(s0.waitq) && (forall u :: u in s0.waitq ==> u < |s0.pc|)
    && s0.waitq == done + rest
    && s.waitq == Without(done, On(s0, c)) + rest && s.pc[t].i == |Without(done, On(s0, c))|
    && (!all ==> forall u :: u in done ==> u !in On(s0, c))
    && (forall u :: u in done && u in On(s0, c) ==> s.runnable[u])
    && (if s.pc[t].Erase?
        then rest != [] && rest[0] in On(s0, c) && s.runnable[rest[0]] && SameRecords(s0, s, rest[1..])
        else SameRecords(s0, s, rest))
  }

  /** What the source promises of a signal: a broadcast releases everybody on the channel, a signal
      the first of them, and nobody else. */
  ghost predicate Delivered(s0: State, s: State, c: nat, all: bool)
    requires s0.Sized()
  {
    && s.Sized() && |s.pc| == |s0.pc|
    && if all then
         s.waitq == Without(s0.waitq, On(s0, c))
         && forall u :: u in On(s0, c) && u < |s.pc| ==> s.runnable[u]
       else if On(s0, c) == {} then s.waitq == s0.waitq
       else
         exists before: seq<nat>, x: nat, after: seq<nat> :: First(s0, s, c, before, x, after)
  }

  ghost predicate First(s0: State, s: State, c: nat, before: seq<nat>, x: nat, after: seq<nat>)
    requires s0.Sized() && s.Sized()
  {
    && s0.waitq == before + [x] + after && x in On(s0, c) && (forall u :: u in before ==> u !in On(s0, c))
    && s.waitq == before + after && x < |s.pc| && s.runnable[x]
  }

  /** The start of the signal. */
  lemma Begins(s0: State, o: nat, t: nat, c: nat, all: bool)
    requires Inv(s0, o) && Enabled(s0, Signal(t, c, all))
    ensures Mid(s0, Do(s0, Signal(t, c, all)), t, c, all, [], s0.waitq)
  {
    assert [] + s0.waitq == s0.waitq;
  }

  /** While one thread is inside, a step of another changes nothing that the sweep sees. */
  lemma OthersStep(s0: State, s: State, o: nat, l: Label, t: nat, c: nat, all: bool,
                   done: seq<nat>, rest: seq<nat>)
    requires s0.Sized() && Inv(s, o) && Enabled(s, l) && l.t != t && Mid(s0, s, t, c, all, done, rest)
    ensures Mid(s0, Do(s, l), t, c, all, done, rest)
  {
    assert ThreadOk(s, o, l.t) && ThreadOk(s, o, t);
    assert l.Come? || l.See? || l.Register?;
  }

  /** The sweep looks at a waiter that is not on the channel, and passes it. */
  lemma Pass(s0: State, s: State, t: nat, c: nat, all: bool, done: seq<nat>, x: nat, rest: seq<nat>)
    requires s0.Sized() && Mid(s0, s, t, c, all, done, [x] + rest) && s.pc[t].Sweep?
    requires s.waitq[s.pc[t].i] == x && x < |s.pc| && s.waits[x].chan != c
    ensures Mid(s0, Looked(s, t), t, c, all, done + [x], rest)
  {
    assert x in [x] + rest && x !in On(s0, c);
    assert forall u :: u in rest ==> u in [x] + rest;
    SelectSnoc(done, x, On(s0, c));
    assert done + ([x] + rest) == done + [x] + rest;
    assert Without(done, On(s0, c)) + ([x] + rest) == Without(done, On(s0, c)) + [x] + rest;
  }

  /** The sweep looks at a waiter on the channel, and resets it. */
  lemma Hit(s0: State, s: State, t: nat, c: nat, all: bool, done: seq<nat>, x: nat, rest: seq<nat>)
    requires s0.Sized() && Mid(s0, s, t, c, all, done, [x] + rest) && s.pc[t].Sweep?
    requires s.waitq[s.pc[t].i] == x && x < |s.pc| && s.waits[x].chan == c
    ensures Mid(s0, Looked(s, t), t, c, all, done, [x] + rest)
  {
    NoDupSplit(done, [x] + rest);
    NoDupSplit([x], rest);
    assert x in [x] && x in [x] + rest && x in s0.waitq by { assert x == s0.waitq[|done|]; }
    assert ([x] + rest)[1..] == rest;
    forall u | u in rest ensures u < |s.waits| && u < |s0.waits| && Looked(s, t).waits[u] == s0.waits[u] {
      assert u in [x] + rest && u != x;
    }
  }

  lemma EraseMiddle(w: seq<nat>, x: nat, rest: seq<nat>)
    ensures Erased(w + ([x] + rest), |w|) == w + rest && (w + ([x] + rest))[|w|] == x
  {
    var q := w + ([x] + rest);
    assert q[..|w|] == w && q[|w| + 1..] == rest;
  }

  /** A broadcast erases the waiter it has reset and goes on. */
  lemma Take(s0: State, s: State, t: nat, c: nat, done: seq<nat>, x: nat, rest: seq<nat>)
    requires s0.Sized() && Mid(s0, s, t, c, true, done, [x] + rest) && s.pc[t].Erase?
    ensures s.pc[t].i < |s.waitq| && Mid(s0, Dropped(s, t), t, c, true, done + [x], rest)
  {
    EraseMiddle(Without(done, On(s0, c)), x, rest);
    SelectSnoc(done, x, On(s0, c));
    assert done + ([x] + rest) == done + [x] + rest && ([x] + rest)[1..] == rest;
  }

  /** A signal erases the waiter it has reset and returns. */
  lemma TakeFirst(s0: State, s: State, t: nat, c: nat, done: seq<nat>, x: nat, rest: seq<nat>)
    requires s0.Sized() && Mid(s0, s, t, c, false, done, [x] + rest) && s.pc[t].Erase?
    ensures s.pc[t].i < |s.waitq| && Delivered(s0, Dropped(s, t), c, false)
  {
    EraseMiddle(Without(done, On(s0, c)), x, rest);
    KeepNothing(done, On(s0, c));
    assert done + ([x] + rest) == done + [x] + rest;
    assert x in On(s0, c) by { assert ([x] + rest)[0] == x; }
    assert First(s0, Dropped(s, t), c, done, x, rest);
  }

  /** The sweep has come to the end of the queue. */
  lemma Ends(s0: State, s: State, t: nat, c: nat, all: bool, done: seq<nat>)
    requires s0.Sized() && Mid(s0, s, t, c, all, done, []) && s.pc[t].Sweep?
    ensures Delivered(s0, Looked(s, t), c, all)
  {
    assert done + [] == done && Without(done, On(s0, c)) + [] == Without(done, On(s0, c));
    if !all { KeepNothing(done, On(s0, c)); }
  }

  /** The place in the queue that the sweep has come to. */
  lemma Cursor(s0: State, s: State, t: nat, c: nat, all: bool, done: seq<nat>, x: nat, rest: seq<nat>)
    requires s0.Sized() && Mid(s0, s, t, c, all, done, [x] + rest)
    ensures s.pc[t].i < |s.waitq| && s.waitq[s.pc[t].i] == x && x < |s.pc|
  {
    assert s0.waitq[|done|] == x && x in s0.waitq;
  }

  lemma OwnLook(s0: State, s: State, t: nat, c: nat, all: bool, done: seq<nat>, rest: seq<nat>)
    returns (done1: seq<nat>, rest1: seq<nat>)
    requires s0.Sized() && Mid(s0, s, t, c, all, done, rest) && s.pc[t].Sweep? && Enabled(s, Look(t))
    ensures var s1 := Looked(s, t);
      if rest == [] then s1.pc[t].Work? && Delivered(s0, s1, c, all)
      else Sweeping(s1.pc[t], c, all) && Mid(s0, s1, t, c, all, done1, rest1)
  {
    done1, rest1 := done, rest;
    if rest == [] {
      Ends(s0, s, t, c, all, done);
    } else {
      var x, tail := rest[0], rest[1..];
      assert rest == [x] + tail;
      Cursor(s0, s, t, c, all, done, x, tail);
      if s.waits[x].chan == c {
        Hit(s0, s, t, c, all, done, x, tail);
      } else {
        Pass(s0, s, t, c, all, done, x, tail);
        done1, rest1 := done + [x], tail;
      }
    }
  }

  lemma OwnDrop(s0: State, s: State, t: nat, c: nat, all: bool, done: seq<nat>, rest: seq<nat>)
    returns (done1: seq<nat>, rest1: seq<nat>)
    requires s0.Sized() && Mid(s0, s, t, c, all, done, rest) && s.pc[t].Erase? && Enabled(s, Drop(t))
    ensures var s1 := Dropped(s, t);
      if all then Sweeping(s1.pc[t], c, all) && Mid(s0, s1, t, c, all, done1, rest1)
      else s1.pc[t].Work? && Delivered(s0, s1, c, all)
  {
    var x, tail := rest[0], rest[1..];
    assert rest == [x] + tail;
    done1, rest1 := done + [x], tail;
    if all { Take(s0, s, t, c, done, x, tail); } else { TakeFirst(s0, s, t, c, done, x, tail); }
  }

  /** One step while the signal is under way. */
  lemma MidStep(s0: State, s: State, o: nat, l: Label, t: nat, c: nat, all: bool,
                done: seq<nat>, rest: seq<nat>) returns (done1: seq<nat>, rest1: seq<nat>)
    requires s0.Sized() && Inv(s, o) && Enabled(s, l) && Mid(s0, s, t, c, all, done, rest)
    ensures Do(s, l).Sized() && t < |Do(s, l).pc|
    ensures if Sweeping(Do(s, l).pc[t], c, all) then Mid(s0, Do(s, l), t, c, all, done1, rest1)
            else Do(s, l).pc[t].Work? && Delivered(s0, Do(s, l), c, all)
  {
    done1, rest1 := done, rest;
    if l.t != t {
      OthersStep(s0, s, o, l, t, c, all, done, rest);
    } else if s.pc[t].Sweep? {
      done1, rest1 := OwnLook(s0, s, t, c, all, done, rest);
    } else {
      done1, rest1 := OwnDrop(s0, s, t, c, all, done, rest);
    }
  }

  /** Every state of the run but the last is inside the signal of thread t. */
  ghost predicate During(s: State, ls: seq<Label>, s1: State, t: nat, c: nat, all: bool)
    decreases |ls|
  {
    if ls == [] then s == s1
    else
      && s.Sized() && t < |s.pc| && Sweeping(s.pc[t], c, all) && Enabled(s, ls[0])
      && During(Do(s, ls[0]), ls[1..], s1, t, c, all)
  }

  lemma {:induction false} DeliveredFrom(s0: State, s: State, o: nat, ls: seq<Label>, s1: State,
                                         t: nat, c: nat, all: bool, done: seq<nat>, rest: seq<nat>)
    requires s0.Sized() && Inv(s, o) && Mid(s0, s, t, c, all, done, rest) && During(s, ls, s1, t, c, all)
    requires s1.Sized() && t < |s1.pc| && s1.pc[t].Work?
    ensures Delivered(s0, s1, c, all)
    decreases |ls|
  {
    if ls != [] {
      var s2 := Do(s, ls[0]);
      var done1, rest1 := MidStep(s0, s, o, ls[0], t, c, all, done, rest);
      StepInv(s, o, ls[0]);
      if Sweeping(s2.pc[t], c, all) {
        DeliveredFrom(s0, s2, NextOwner(ls[0], o), ls[1..], s1, t, c, all, done1, rest1);
      } else {
        assert ls[1..] == [];
      }
    }
  }

  /** However the other threads interleave, when a signal or broadcast returns it has released the
      first waiter on its channel, or all of them, and nobody else. */
  lemma SignalDelivers(s0: State, o: nat, ls: seq<Label>, s1: State, t: nat, c: nat, all: bool)
    requires Inv(s0, o) && Enabled(s0, Signal(t, c, all))
    requires During(Do(s0, Signal(t, c, all)), ls, s1, t, c, all)
    requires s1.Sized() && t < |s1.pc| && s1.pc[t].Work?
    ensures Delivered(s0, s1, c, all)
  {
    Begins(s0, o, t, c, all);
    StepInv(s0, o, Signal(t, c, all));
    DeliveredFrom(s0, Do(s0, Signal(t, c, all)), o, ls, s1, t, c, all, [], s0.waitq);
  }

  /** A waiter keeps the channel and the deadline it called wait with until it is released. */
  lemma WaiterKeepsRecord(s: State, o: nat, l: Label, u: nat)
    requires Inv(s, o) && Enabled(s, l) && u < |s.pc| && u < |Do(s, l).waits|
    ensures s.pc[u].Queue? && l.t == u ==>
      u in Do(s, l).waitq && Do(s, l).waits[u] == Record(s.pc[u].chan, s.pc[u].deadline)
    ensures u in s.waitq && Parked(s, o, u) && !s.runnable[u] && !Do(s, l).runnable[u] ==>
      Do(s, l).waits[u] == s.waits[u] && u in Do(s, l).waitq
  {
    assert ThreadOk(s, o, u) && ThreadOk(s, o, l.t);
    if l.Drop? { DropOne(s.waitq, s.pc[l.t].i); }
  }
}
