/** Thread end: the ending thread wakes its joiner, gives the turn away unless it is the last, and
    nobody is left waiting for a thread that has ended. */
module Joins {
  import opened Queues
  import opened Scheduler
  import opened Safety
  import opened SchedulerTheorems
  import opened Deadlines
  import opened Phases

  /** putTurn at thread end wakes the thread that has waited longest for this end: it leaves the
      wait queue for the run queue, and the other waiters stay. */
  lemma EndWakesJoiner(s: State, o: int, t: nat) returns (x: nat)
    requires Inv(s, o) && Enabled(s, End(t)) && WaitersOn(s, Exit(t)) != {}
    ensures var s1 := Do(s, End(t));
      && s1.Sized() && x in WaitersOn(s, Exit(t)) && x < |s1.pc|
      && x !in s1.waitq && x in s1.runq && PhaseOf(s1, x) == Free(Signalled)
      && forall u :: u in s.waitq && u != x ==> u in s1.waitq
  {
    x := SignalOnePhases(s, o, Exit(t));
    PhaseOwner(s, o, t);
    var before, y, after := SignalIsFifoAt(s, o, Exit(t));
    assert x == y by {
      assert PhaseOf(Signal1(s, Exit(t), false), y).Free?;
    }
    OneReleasedGone(s, before, x, after);
    var s0 := Signal1(s, Exit(t), false);
    var s1 := EnterNext(s0, t, ToEnd);
    assert s0.runq == s.runq + [x] && s0.runq[0] == t by { assert ThreadOk(s, o, t); }
    PopKeeps(s.runq, x);
    assert s1.pc[x] == s0.pc[x];
  }

  lemma PopKeeps(q: seq<nat>, x: nat)
    requires q != []
    ensures x in PopFront(q + [x])
  {
    assert PopFront(q + [x]) == q[1..] + [x];
  }

  /** SignalIsFifo for a channel with waiters. */
  lemma SignalIsFifoAt(s: State, o: int, c: Chan) returns (before: seq<nat>, x: nat, after: seq<nat>)
    requires Inv(s, o) && WaitersOn(s, c) != {}
    ensures x in WaitersOn(s, c) && s.waitq == before + [x] + after
    ensures Signal1(s, c, false) == s.(runq := s.runq + [x], waitq := before + after,
                                       waits := s.waits[x := Wait(Null, FOREVER, Signalled, false)])
    ensures PhaseOf(Signal1(s, c, false), x) == Free(Signalled)
  {
    WaitersAreQueued(s, o, c);
    before, x, after := SignalIsFifo(s, c);
    OneReleasedGone(s, before, x, after);
    PhaseOwner(s, o, x);
  }

  /** The turn is let go for good only by a thread at its end that leaves nobody waiting, or by
      the main thread. */
  lemma FinishIsLast(s: State, t: nat)
    requires Reachable(s) && s.Sized() && Enabled(s, Finish(t))
    ensures s.runq == [] && (s.waitq == [] || t == MAIN)
    ensures AfterOf(s.pc[t]).ToEnd?
  {
    var o := ReachableInv(s);
  }

  /** Otherwise an empty run queue brings in the idle thread: it leaves the wait queue, it is all
      of the run queue, and the caller's next step gives it the turn. */
  lemma IdleTakesOver(s: State, o: int, t: nat)
    requires Inv(s, o) && s.idle && IDLE < |s.pc| && t < |s.pc| && s.pc[t].Scanning? && s.runq == []
    requires !(s.pc[t].after.ToEnd? && (s.waitq == [] || t == MAIN))
    ensures Enabled(s, WakeIdle(t)) && !Enabled(s, Finish(t))
    ensures var s1 := Do(s, WakeIdle(t));
      && s1.Sized() && s1.runq == [IDLE] && IDLE !in s1.waitq
      && Enabled(s1, Scan(t)) && Do(s1, Scan(t)).pc[t] == Posting(IDLE, s.pc[t].after)
  {
    IdleNeverStuck(s, o, t);
    assert ThreadOk(s, o, IDLE);
    OnlyOne(s.waitq, IDLE);
    WithoutMembers(s.waitq, {IDLE});
  }

  /** Keeping one member of a queue without duplicates. */
  lemma OnlyOne(q: seq<nat>, x: nat)
    requires NoDup(q) && x in q
    ensures Keep(q, {x}) == [x]
  {
    var i :| 0 <= i < |q| && q[i] == x;
    assert q == q[..i] + [x] + q[i + 1..];
    NoDupSplit(q[..i] + [x], q[i + 1..]);
    SelectOne(q[..i], x, q[i + 1..], {x});
  }

  // pthread_join ----------------------------------------------------------------------------------

  /** `joining[t]` is the thread that t is in pthread_join for. */
  datatype Jn = Jn(s: State, zombies: set<nat>, joining: map<nat, nat>)

  datatype JnLabel =
    | Sched(l: Label)
    | Join(t: nat, u: nat)
    | Test(t: nat)              // one round of the loop: the target is a zombie, or wait for it

  ghost predicate CanDo(k: Jn, x: JnLabel) {
    k.s.Sized() &&
    match x
    case Sched(l) =>
      && Enabled(k.s, l) && (Outside(l) ==> l.t !in k.joining)
      && (l.Signal? ==> !l.chan.Exit?) && (l.Tick? && l.k.ThenPark? ==> !l.k.chan.Exit?)
    case Join(t, u) =>
      // POSIX leaves a second join of the same thread undefined
      t < |k.s.pc| && k.s.pc[t].Work? && !k.s.IsIdle(t) && t !in k.joining && u !in k.joining.Values
    case Test(t) => t < |k.s.pc| && k.s.pc[t].Work? && !k.s.IsIdle(t) && t in k.joining
  }

  ghost function JnDo(k: Jn, x: JnLabel): Jn
    requires CanDo(k, x)
  {
    match x
    case Sched(l) => k.(s := Do(k.s, l), zombies := if l.End? then k.zombies + {l.t} else k.zombies)
    case Join(t, u) => k.(joining := k.joining[t := u])
    case Test(t) =>
      if k.joining[t] in k.zombies then k.(joining := k.joining - {t})
      else k.(s := Ticked(k.s, t, ThenPark(Exit(k.joining[t]), FOREVER)))
  }

  /** Whoever waits for an end is joining that thread, without a deadline, and the thread lives. */
  predicate JoinFits(k: Jn, p: Phase, t: nat) {
    !p.Free? && p.chan.Exit? ==>
      && t in k.joining && k.joining[t] == p.chan.tid && p.deadline == FOREVER
      && p.chan.tid !in k.zombies
  }

  ghost predicate JnInv(k: Jn, o: int) {
    && Inv(k.s, o)
    && (forall t :: 0 <= t < |k.s.pc| ==> JoinFits(k, PhaseOf(k.s, t), t))
    && (forall t, u :: t in k.joining && u in k.joining && k.joining[t] == k.joining[u] ==> t == u)
  }

  lemma MoveFits(k: Jn, l: Label, s1: State, u: nat, z: set<nat>)
    requires k.s.Sized() && Moved(k.s, l, s1) && u < |k.s.pc| && JoinFits(k, PhaseOf(k.s, u), u)
    requires !l.End? && z == k.zombies
    requires l.Tick? && l.k.ThenPark? && l.t == u ==> !l.k.chan.Exit?
    ensures JoinFits(k.(s := s1, zombies := z), PhaseOf(s1, u), u)
  {
    assert PhaseMove(k.s, l, u, PhaseOf(k.s, u), PhaseOf(s1, u));
  }

  lemma SchedStep(k: Jn, o: int, l: Label)
    requires JnInv(k, o) && CanDo(k, Sched(l)) && !l.End?
    ensures JnInv(JnDo(k, Sched(l)), NextOwner(k.s, l, o))
  {
    StepInv(k.s, o, l);
    StepMoves(k.s, o, l);
    var k1 := JnDo(k, Sched(l));
    forall u | 0 <= u < |k1.s.pc| ensures JoinFits(k1, PhaseOf(k1.s, u), u) {
      if u < |k.s.pc| { MoveFits(k, l, k1.s, u, k.zombies); }
    }
  }

  /** The end of a thread leaves nobody waiting for it: there is one joiner, and it is woken. */
  lemma EndStep(k: Jn, o: int, t: nat)
    requires JnInv(k, o) && CanDo(k, Sched(End(t)))
    ensures JnInv(JnDo(k, Sched(End(t))), o)
  {
    var l := End(t);
    StepInv(k.s, o, l);
    StepMoves(k.s, o, l);
    DoSized(k.s, l);
    var k1 := JnDo(k, Sched(l));
    forall u | 0 <= u < |k1.s.pc| ensures JoinFits(k1, PhaseOf(k1.s, u), u) {
      EndFits(k, o, t, u);
    }
  }

  lemma EndFits(k: Jn, o: int, t: nat, u: nat)
    requires JnInv(k, o) && CanDo(k, Sched(End(t))) && u < |k.s.pc|
    ensures var k1 := JnDo(k, Sched(End(t)));
      k1.s.Sized() && u < |k1.s.pc| && JoinFits(k1, PhaseOf(k1.s, u), u)
  {
    var s1 := Do(k.s, End(t));
    PhaseStep(k.s, o, End(t), u);
    PhaseOwner(k.s, o, u);
    PhaseOwner(k.s, o, t);
    if WaitsOn(PhaseOf(k.s, u), Exit(t)) {
      assert u in WaitersOn(k.s, Exit(t));
      var x := EndWakesJoiner(k.s, o, t);
      assert JoinFits(k, PhaseOf(k.s, x), x) && JoinFits(k, PhaseOf(k.s, u), u);
      assert x == u;
    }
  }

  lemma TestStep(k: Jn, o: int, t: nat)
    requires JnInv(k, o) && CanDo(k, Test(t))
    ensures JnInv(JnDo(k, Test(t)), o)
  {
    var k1 := JnDo(k, Test(t));
    PhaseOwner(k.s, o, t);
    if k.joining[t] !in k.zombies {
      var l := Tick(t, ThenPark(Exit(k.joining[t]), FOREVER));
      StepInv(k.s, o, l);
      StepMoves(k.s, o, l);
      TickPhase(k.s, o, t, l.k, t);
      forall u | 0 <= u < |k.s.pc| && u != t ensures JoinFits(k1, PhaseOf(k1.s, u), u) {
        MoveFits(k, l, k1.s, u, k.zombies);
      }
    }
  }

  lemma JnStepInv(k: Jn, o: int, x: JnLabel) returns (o1: int)
    requires JnInv(k, o) && CanDo(k, x)
    ensures JnInv(JnDo(k, x), o1)
  {
    o1 := o;
    match x
    case Sched(l) =>
      if l.End? {
        EndStep(k, o, l.t);
      } else {
        SchedStep(k, o, l);
        o1 := NextOwner(k.s, l, o);
      }
    case Join(t, _) => PhaseOwner(k.s, o, t);
    case Test(t) => TestStep(k, o, t);
  }

  ghost predicate JnStepAt(ks: seq<Jn>, xs: seq<JnLabel>, i: nat)
    requires i < |xs| < |ks|
  {
    CanDo(ks[i], xs[i]) && ks[i + 1] == JnDo(ks[i], xs[i])
  }

  ghost predicate JnRun(ks: seq<Jn>, xs: seq<JnLabel>) {
    && |ks| == |xs| + 1
    && (exists idle: bool, r: nat :: ks[0] == Jn(Init(idle, r), {}, map[]))
    && forall i {:trigger JnStepAt(ks, xs, i)} :: 0 <= i < |xs| ==> JnStepAt(ks, xs, i)
  }

  lemma {:induction false} JnRunInv(ks: seq<Jn>, xs: seq<JnLabel>, i: nat) returns (o: int)
    requires JnRun(ks, xs) && i < |ks|
    ensures JnInv(ks[i], o)
  {
    if i == 0 {
      var idle: bool, r: nat :| ks[0] == Jn(Init(idle, r), {}, map[]);
      InitInv(idle, r);
      o := MAIN;
    } else {
      o := JnRunInv(ks, xs, i - 1);
      assert JnStepAt(ks, xs, i - 1);
      o := JnStepInv(ks[i - 1], o, xs[i - 1]);
    }
  }

  /** In every run nobody waits for a thread that has ended: its joiner has been woken, and a
      joiner that tests with the turn returns. */
  lemma NobodyWaitsForZombies(ks: seq<Jn>, xs: seq<JnLabel>, i: nat, u: nat)
    requires JnRun(ks, xs) && i < |ks| && u in ks[i].zombies
    ensures ks[i].s.Sized() && WaitersOn(ks[i].s, Exit(u)) == {}
    ensures forall t :: CanDo(ks[i], Test(t)) && ks[i].joining[t] == u ==> t !in JnDo(ks[i], Test(t)).joining
  {
    var o := JnRunInv(ks, xs, i);
    forall t | 0 <= t < |ks[i].s.pc| ensures !WaitsOn(PhaseOf(ks[i].s, t), Exit(u)) {
      assert JoinFits(ks[i], PhaseOf(ks[i].s, t), t);
    }
  }
}
