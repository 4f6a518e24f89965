/** The scheduler's guarantees, for every state that some interleaving reaches. */
module SchedulerTheorems {
  import opened Queues
  import opened Scheduler
  import opened Safety

  /** Some interleaving of thread steps leads from start-up to `s`. */
  ghost predicate Reachable(s: State) {
    exists idle: bool, r: nat, ls: seq<Label> :: Run(Init(idle, r), ls, s)
  }

  lemma {:induction false} RunInv(s: State, o: int, ls: seq<Label>, s1: State) returns (o1: int)
    requires Inv(s, o) && Run(s, ls, s1)
    ensures Inv(s1, o1)
    decreases |ls|
  {
    if ls == [] {
      o1 := o;
    } else {
      StepInv(s, o, ls[0]);
      o1 := RunInv(Do(s, ls[0]), NextOwner(s, ls[0], o), ls[1..], s1);
    }
  }

  lemma ReachableInv(s: State) returns (o: int)
    requires Reachable(s)
    ensures Inv(s, o)
  {
    var idle: bool, r: nat, ls: seq<Label> :| Run(Init(idle, r), ls, s);
    InitInv(idle, r);
    o := RunInv(Init(idle, r), MAIN, ls, s);
  }

  // No thread is lost or duplicated -------------------------------------------------

  function Count(q: seq<nat>, t: nat): nat {
    multiset(q)[t]
  }

  lemma {:induction false} NoDupCount(q: seq<nat>, t: nat)
    requires NoDup(q)
    ensures Count(q, t) == if t in q then 1 else 0
  {
    if q != [] {
      var n := |q| - 1;
      assert q == q[..n] + [q[n]];
      assert forall i :: 0 <= i < n ==> q[..n][i] == q[i];
      NoDupCount(q[..n], t);
      assert t == q[n] ==> t !in q[..n];
    }
  }

  /** Why a thread may be on neither queue. */
  predicate Away(s: State, t: nat)
    requires s.Sized() && t < |s.pc|
  {
    || s.status[t].InterProStop?         // inside a blocking call, or about to enter it
    || s.pc[t].Returned?                 // between interProEnd and wakeup
    || t in s.registered                 // the next check_wakeup puts it back
    || s.pc[t].Ended? || (InNext(s.pc[t]) && AfterOf(s.pc[t]).ToEnd?)
  }

  lemma NoThreadLost(s: State, t: nat)
    requires Reachable(s) && s.Sized() && t < |s.pc|
    ensures Count(s.runq, t) + Count(s.waitq, t) <= 1
    ensures Count(s.runq, t) + Count(s.waitq, t) == 0 ==> Away(s, t)
    ensures s.pc[t].Ended? ==> Count(s.runq, t) + Count(s.waitq, t) == 0 && t !in s.registered
  {
    var o := ReachableInv(s);
    assert ThreadOk(s, o, t);
    NoDupCount(s.runq, t);
    NoDupCount(s.waitq, t);
  }

  /** What selfcheck asserts of the two queues, but for its last assertion, that no thread waits
      on NULL for ever; Sleepers says exactly when that fails. */
  lemma SelfCheck(s: State)
    requires Reachable(s)
    ensures s.Sized() && NoDup(s.runq + s.waitq)
    ensures forall t :: t in s.runq ==>
      t < |s.pc| && s.waits[t].chan.Null? && s.waits[t].timeout == FOREVER
    ensures forall t :: t in s.waitq ==> t < |s.pc|
  {
    var o := ReachableInv(s);
    forall i, j | 0 <= i < j < |s.runq + s.waitq|
      ensures (s.runq + s.waitq)[i] != (s.runq + s.waitq)[j]
    {
      if i < |s.runq| <= j { assert s.runq[i] in s.runq && s.waitq[j - |s.runq|] in s.waitq; }
    }
    forall t | t in s.runq
      ensures s.waits[t].chan.Null? && s.waits[t].timeout == FOREVER
    {
      assert ThreadOk(s, o, t);
    }
  }

  // One token -------------------------------------------------------------------------

  /** The thread holds the turn, or its wake flag is set. */
  predicate HasToken(s: State, t: nat)
    requires s.Sized() && t < |s.pc|
  {
    Holder(s.pc[t]) || s.waits[t].wakenUp
  }

  lemma SingleToken(s: State, t: nat, u: nat)
    requires Reachable(s) && s.Sized() && t < |s.pc| && u < |s.pc|
    requires HasToken(s, t)
    ensures HasToken(s, u) ==> u == t
    ensures InNext(s.pc[t]) || (s.runq != [] && s.runq[0] == t && Running(s.status[t]))
  {
    var o := ReachableInv(s);
    assert ThreadOk(s, o, t);
    assert ThreadOk(s, o, u);
  }

  /** A running status without the token is a mark tryPutTurn or post left on a queued thread. */
  lemma RunningIsQueued(s: State, t: nat)
    requires Reachable(s) && s.Sized() && t < |s.pc| && Running(s.status[t])
    ensures t in s.runq && t !in s.waitq && !s.pc[t].InCall? && !s.pc[t].Ended?
  {
    var o := ReachableInv(s);
    assert ThreadOk(s, o, t);
  }

  /** No assertion of the scheduler fails, whatever step is taken. */
  lemma NoAssertFails(s: State, l: Label)
    requires Reachable(s) && s.Sized() && Enabled(s, l)
    ensures Asserts(s, l)
  {
    var o := ReachableInv(s);
    assert ThreadOk(s, o, l.t);
    if l.Post? {
      assert ThreadOk(s, o, s.pc[l.t].target);
    } else if l.WakeIdle? {
      IdleNeverStuck(s, o, l.t);
    }
  }

  // The turn is never stuck -------------------------------------------------------------

  /** nextRunnable gives up for want of an idle thread. */
  predicate NoIdleThread(s: State, t: nat)
    requires s.Sized() && t < |s.pc|
  {
    s.pc[t].Scanning? && s.runq == [] && !LastOne(s, t, s.pc[t].after)
    && (!s.idle || IDLE >= |s.pc|)
  }

  /** Whoever has the token can take a step, and wakeUpIdleThread finds the idle thread. */
  lemma TokenMoves(s: State, t: nat) returns (l: Label)
    requires Reachable(s) && s.Sized() && t < |s.pc| && HasToken(s, t)
    requires !NoIdleThread(s, t)
    ensures l.t == t && Enabled(s, l)
  {
    var o := ReachableInv(s);
    assert ThreadOk(s, o, t);
    match s.pc[t]
    case Saw(_) => l := TakeTurn(t);
    case Work(_) => l := Tick(t, ThenWork);
    case MustTick => l := Tick(t, ThenBlock);
    case Checking(_) => l := ReadFlag(t);
    case Merging(_) => l := Merge(t, Enumerate(s.registered));
    case Parking(_, _) => l := Park(t);
    case Leaving => l := LeaveBlock(t);
    case Posting(_, _) => l := Post(t);
    case Trying(i) =>
      if i < |s.runq| { assert s.runq[i] in s.runq; }
      l := if i < |s.runq| then TryMark(t) else TryFail(t);
    case Returned => l := Wakeup(t);
    case Scanning(_, a) =>
      if s.runq != [] {
        assert s.runq[0] in s.runq;
        l := Scan(t);
      } else if LastOne(s, t, a) {
        l := Finish(t);
      } else {
        IdleNeverStuck(s, o, t);
        l := WakeIdle(t);
      }
    case _ => l := SeeFlag(t);
  }

  ghost function Enumerate(m: set<nat>): (q: seq<nat>)
    ensures Enumerates(q, m)
  {
    if m == {} then []
    else
      var x :| x in m;
      var q := Enumerate(m - {x});
      ElemsCons(x, q);
      [x] + q
  }

  lemma ElemsCons(x: nat, q: seq<nat>)
    ensures Elems([x] + q) == {x} + Elems(q)
  {
    assert forall y :: y in [x] + q <==> y == x || y in q;
  }
}
