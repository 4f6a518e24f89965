/** Logical deadlines are exact and wakeups are first-in first-out. */
module Deadlines {
  import opened Queues
  import opened Scheduler
  import opened Safety
  import opened SchedulerTheorems

  lemma {:induction false} SelectConserves(q: seq<nat>, m: set<nat>)
    ensures multiset(Keep(q, m)) + multiset(Without(q, m)) == multiset(q)
  {
    if q != [] {
      var n := |q| - 1;
      assert q == q[..n] + [q[n]];
      SelectConserves(q[..n], m);
    }
  }

  /** Waking waiters moves threads between the queues; it creates and drops none. */
  lemma ReleaseConserves(s: State, m: set<nat>, r: Reason)
    requires s.Sized()
    ensures var s1 := Release(s, m, r);
      multiset(s1.runq) + multiset(s1.waitq) == multiset(s.runq) + multiset(s.waitq)
  {
    SelectConserves(s.waitq, m);
  }

  /** signal wakes exactly the longest waiting thread of the channel. */
  lemma SignalIsFifo(s: State, c: Chan) returns (before: seq<nat>, x: nat, after: seq<nat>)
    requires s.Sized() && NoDup(s.waitq) && OnChan(s, c) != {}
    ensures x in OnChan(s, c) && s.waitq == before + [x] + after
    ensures forall y :: y in before ==> y !in OnChan(s, c)
    ensures Signal1(s, c, false) ==
      s.(runq := s.runq + [x], waitq := before + after,
         waits := s.waits[x := Wait(Null, FOREVER, Signalled, false)])
  {
    var on := OnChan(s, c);
    before, after := SplitAtFirst(s.waitq, on);
    var w :| w in on;
    assert w in s.waitq;
    x := Keep(s.waitq, on)[0];
    OneReleased(s, before, x, after);
  }

  /** Without a waiter on the channel, signal changes nothing. */
  lemma SignalNobody(s: State, c: Chan, all: bool)
    requires s.Sized() && OnChan(s, c) == {}
    ensures Signal1(s, c, all) == s
  {
    KeepNothing(s.waitq, {});
    assert ResetAll(s.waits, {}, Signalled) == s.waits;
  }

  lemma OneReleased(s: State, before: seq<nat>, x: nat, after: seq<nat>)
    requires s.Sized() && NoDup(s.waitq) && s.waitq == before + [x] + after && x < |s.waits|
    ensures Release(s, {x}, Signalled) ==
      s.(runq := s.runq + [x], waitq := before + after,
         waits := s.waits[x := Wait(Null, FOREVER, Signalled, false)])
  {
    NoDupSplit(before + [x], after);
    NoDupSplit(before, [x]);
    SelectOne(before, x, after, {x});
    assert ResetAll(s.waits, {x}, Signalled) == s.waits[x := Wait(Null, FOREVER, Signalled, false)];
  }

  /** A tick releases a waiter exactly when its deadline lies before the new turn count. */
  lemma TickReleases(s: State, o: int, t: nat, k: Then, u: nat)
    requires Inv(s, o) && t < |s.pc| && CanTick(s, t, k) && u in s.waitq
    ensures var s1 := Ticked(s, t, k);
      && u < |s1.pc| == |s1.waits|
      && (u in s1.waitq <==> s1.turn <= s.waits[u].timeout)
      && (u in s1.runq <==> s.waits[u].timeout < s1.turn)
      && (u in s1.runq ==> s1.waits[u].reason == TimedOut)
      && (exists m :: s1.runq == s.runq + Keep(s.waitq, m) && s1.waitq == Without(s.waitq, m))
  {
    assert ThreadOk(s, o, u);
    var c := Clock(s, t);
    KeepMembers(s.waitq, Expired(c));
    WithoutMembers(s.waitq, Expired(c));
  }

  /** incTurnCount wakes exactly the waiters whose deadline lies before the new turn count,
      in queue order, and leaves the others in order. */
  lemma TimeoutsExact(s: State, t: nat, k: Then, u: nat)
    requires Reachable(s) && s.Sized() && Enabled(s, Tick(t, k)) && u in s.waitq
    ensures var s1 := Do(s, Tick(t, k));
      && u < |s1.pc|
      && (u in s1.waitq <==> s1.turn <= s.waits[u].timeout)
      && (u in s1.runq <==> s.waits[u].timeout < s1.turn)
      && (u in s1.runq ==> s1.waits[u].reason == TimedOut)
      && (exists m :: s1.runq == s.runq + Keep(s.waitq, m) && s1.waitq == Without(s.waitq, m))
  {
    var o := ReachableInv(s);
    TickReleases(s, o, t, k, u);
  }

  /** fireTimeouts moves a thread exactly when nextTimeout lies before the turn count. */
  lemma FiresIffDue(s: State, next: nat)
    requires s.Sized() && (forall t :: t in s.waitq ==> t < |s.waits|) && s.turn < WORD
    requires next <= FOREVER && forall t :: t in s.waitq ==> next <= s.waits[t].timeout
    requires next < FOREVER ==> exists t :: t in s.waitq && s.waits[t].timeout == next
    ensures Expired(s) != {} <==> next < s.turn
  {
    if next < s.turn {
      var t :| t in s.waitq && s.waits[t].timeout == next;
      assert t in Expired(s);
    }
  }

  /** The step signals the channel `c`. */
  predicate Signals(l: Label, c: Chan) {
    (l.Signal? && l.chan == c) || (l.End? && c == Exit(l.t))
  }

  /** What one step can do to a waiting thread: it goes on waiting on the same channel with
      the same deadline, or its channel is signalled, or its deadline passes, or it is the
      idle thread and the run queue is empty. */
  predicate Fate(s: State, l: Label, s1: State, u: nat)
    requires s.Sized() && s1.Sized() && u < |s.pc| && u < |s1.pc|
  {
    && (u in s1.waitq ==> s1.waits[u].chan == s.waits[u].chan && s1.waits[u].timeout == s.waits[u].timeout)
    && (u !in s1.waitq ==>
          || (Signals(l, s.waits[u].chan) && s1.waits[u].reason == Signalled)
          || (l.Tick? && s.waits[u].timeout < s1.turn && s1.waits[u].reason == TimedOut)
          || (l.WakeIdle? && s.IsIdle(u)))
    && (l.Tick? && u in s1.waitq ==> s1.turn <= s.waits[u].timeout)
    && (!l.Tick? ==> s1.turn == s.turn)
  }

  lemma WaiterFate(s: State, o: int, l: Label, u: nat)
    requires Inv(s, o) && Enabled(s, l) && u in s.waitq
    ensures Do(s, l).Sized() && u < |Do(s, l).pc| && Fate(s, l, Do(s, l), u)
  {
    assert ThreadOk(s, o, u) && ThreadOk(s, o, l.t);
    if TouchesWaits(l) {
      LoudFate(s, l, u);
    } else {
      QuietStep(s, l);
    }
  }

  lemma LoudFate(s: State, l: Label, u: nat)
    requires s.Sized() && Enabled(s, l) && TouchesWaits(l) && u in s.waitq && u < |s.pc|
    requires l.Park? ==> l.t != u
    ensures Do(s, l).Sized() && u < |Do(s, l).pc| && Fate(s, l, Do(s, l), u)
  {
    match l
    case Signal(_, c, all) => ReleaseFate(s, SignalSet(s, c, all), Signalled, u); SignalOn(s, c, all);
    case End(t) => ReleaseFate(s, SignalSet(s, Exit(t), false), Signalled, u); SignalOn(s, Exit(t), false);
    case Tick(t, _) => ReleaseFate(Clock(s, t), Expired(Clock(s, t)), TimedOut, u);
    case WakeIdle(_) => ReleaseFate(s, {IDLE}, s.waits[IDLE].reason, u);
    case Park(_) =>
  }

  lemma ReleaseFate(s: State, m: set<nat>, r: Reason, u: nat)
    requires s.Sized() && u in s.waitq && u < |s.waits|
    ensures var s1 := Release(s, m, r);
      && (u in s1.waitq <==> u !in m)
      && s1.waits[u] == if u in m then Wait(Null, FOREVER, r, false) else s.waits[u]
  {
    WithoutMembers(s.waitq, m);
  }

  /** `u` sits in the wait queue from the first to the last state of the run. */
  ghost predicate WaitsThrough(s: State, ls: seq<Label>, u: nat)
    decreases |ls|
  {
    u in s.waitq &&
    (ls != [] ==> s.Sized() && Enabled(s, ls[0]) && WaitsThrough(Do(s, ls[0]), ls[1..], u))
  }

  predicate Ticks(ls: seq<Label>) {
    exists i :: 0 <= i < |ls| && ls[i].Tick?
  }

  /** No thread goes on waiting past its deadline: once the clock has moved during its wait,
      the turn count is at most the deadline it started with. */
  lemma {:induction false} NeverOutlivesDeadline(s: State, o: int, ls: seq<Label>, s1: State, u: nat)
    requires Inv(s, o) && Run(s, ls, s1) && WaitsThrough(s, ls, u) && u < |s.pc|
    requires Ticks(ls) || s.turn <= s.waits[u].timeout
    ensures s1.Sized() && u < |s1.pc| && s1.waits[u].timeout == s.waits[u].timeout
    ensures s1.turn <= s1.waits[u].timeout
    decreases |ls|
  {
    if ls != [] {
      var l, rest := ls[0], ls[1..];
      var s2 := Do(s, l);
      WaiterFate(s, o, l, u);
      StepInv(s, o, l);
      if !l.Tick? && Ticks(ls) {
        var i :| 0 <= i < |ls| && ls[i].Tick?;
        assert rest[i - 1].Tick?;
      }
      assert u in s2.waitq;
      NeverOutlivesDeadline(s2, NextOwner(s, l, o), rest, s1, u);
    }
  }
}
